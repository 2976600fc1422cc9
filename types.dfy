/**
 * The records of types.ts: users, their quarterly metrics, weekly entries, one-on-one
 * feedback, and the application state that holds them.
 */
module Types {
  import opened Wrappers

  datatype UserRole = Partner | Contributor

  /** The four ways a metric's weekly numbers are reduced and judged. */
  datatype MetricType = PercentageCumulative | PercentageAverage | SumTarget | MaxLimit

  /** One question of a metric's weekly form (`label` is a Dafny keyword, hence `labelText`); its answer is always a number. */
  datatype InputConfig = InputConfig(key: string, labelText: string, placeholder: Option<string>)

  /**
   * A quarterly target. The order of `inputs` is part of the contract: `inputs[0]` is the
   * denominator or the primary value, `inputs[1]` the numerator.
   */
  datatype Metric = Metric(
    id: string,
    title: string,
    targetValue: real,
    kind: MetricType,
    unit: string,
    description: Option<string>,
    inputs: seq<InputConfig>)

  /** A JavaScript number as the forms produce it: a finite value, or the NaN of `parseFloat` on a non-number. */
  datatype Number = Finite(value: real) | NaN

  /** One numeric property of a record. */
  datatype Field = Field(key: string, value: Number)

  /** The keys a record defines. */
  function Keys(fields: seq<Field>): set<string>
  {
    if fields == [] then {} else {fields[0].key} + Keys(fields[1..])
  }

  /** `record[key]`: the value stored under `key`, if the key is defined. */
  function Get(fields: seq<Field>, key: string): (r: Option<Number>)
    ensures r.Some? <==> key in Keys(fields)
  {
    if fields == [] then None
    else if fields[0].key == key then Some(fields[0].value)
    else Get(fields[1..], key)
  }

  /**
   * `{...record, [key]: value}`: a key already defined keeps its place in the
   * enumeration order and takes the new value; a new key is enumerated last.
   */
  function Assign(fields: seq<Field>, key: string, value: Number): (r: seq<Field>)
    ensures Get(r, key) == Some(value)
    ensures forall k :: k != key ==> Get(r, k) == Get(fields, k)
    ensures Keys(r) == Keys(fields) + {key}
    ensures key in Keys(fields) ==> |r| == |fields|
    ensures key !in Keys(fields) ==> r == fields + [Field(key, value)]
  {
    if fields == [] then [Field(key, value)]
    else if fields[0].key == key then [Field(key, value)] + fields[1..]
    else [fields[0]] + Assign(fields[1..], key, value)
  }

  /**
   * `WeeklyData.inputs`: the numeric answers in enumeration order, and, beside them, the
   * `metricId` string that tags the entry with the metric it answers.
   */
  datatype Inputs = Inputs(metricId: Option<string>, fields: seq<Field>)

  /** The empty record `{}`. */
  const NoInputs: Inputs := Inputs(None, [])

  /** `{...inputs, metricId: id}`. */
  function Tagged(inputs: Inputs, id: string): (r: Inputs)
    ensures r.metricId == Some(id) && r.fields == inputs.fields
  {
    inputs.(metricId := Some(id))
  }

  /** `inputs[key] as number || 0`: a missing key, a zero and NaN all read as 0. */
  function ReadOrZero(inputs: Inputs, key: string): (r: real)
    ensures Get(inputs.fields, key).None? ==> r == 0.0
    ensures Get(inputs.fields, key) == Some(NaN) ==> r == 0.0
    ensures Get(inputs.fields, key) == Some(Finite(r)) || r == 0.0
  {
    match Get(inputs.fields, key)
    case Some(Finite(v)) => v
    case _ => 0.0
  }

  /** `Object.values(inputs).filter(v => typeof v === 'number').length`: NaN is a number too, the tag is not. */
  function NumericCount(inputs: Inputs): nat
  {
    |Keys(inputs.fields)|
  }

  /** One week's answers for one metric. */
  datatype WeeklyData = WeeklyData(week: int, inputs: Inputs, calculatedValue: real, timestamp: string)

  /** The notes of a one-on-one meeting. */
  datatype Feedback = Feedback(
    week: int,
    blockers: Option<string>,
    commitment: Option<string>,
    learning: Option<string>,
    commitmentCompleted: Option<bool>,
    timestamp: Option<string>)

  datatype User = User(
    id: string,
    name: string,
    role: UserRole,
    avatar: string,
    roleTitle: string,
    metrics: seq<Metric>,
    password: Option<string>)

  /** Everything the session keeps: the team, entries and feedback per user id, and the current week. */
  datatype AppState = AppState(
    users: seq<User>,
    entries: map<string, seq<WeeklyData>>,
    feedback: map<string, seq<Feedback>>,
    currentWeek: int)

  /** `state.entries[userId] || []`. */
  function EntriesOf(state: AppState, userId: string): seq<WeeklyData>
  {
    if userId in state.entries then state.entries[userId] else []
  }

  /** `state.feedback[userId] || []`. */
  function FeedbackOf(state: AppState, userId: string): seq<Feedback>
  {
    if userId in state.feedback then state.feedback[userId] else []
  }
}
