/**
 * components/OneOnOne.tsx: the individual panel a partner opens for one user. It charts
 * the user's primary metric week by week, recalls last week's commitment, and edits the
 * one-on-one notes of the current week.
 */
module OneOnOneComponent {
  import opened Wrappers
  import opened Seqs
  import opened Types
  import opened Calculator
  import opened AppComponent

  // ---------------------------------------------------------------------------
  // the chart

  /** The decimal digits of `n`, most significant first. */
  function NatToString(n: nat): (r: string)
    ensures |r| >= 1
    ensures forall i :: 0 <= i < |r| ==> '0' <= r[i] <= '9'
    decreases n
  {
    var d := ['0' + (n % 10) as char];
    if n < 10 then d else NatToString(n / 10) + d
  }

  /** `String(n)` for an integer. */
  function IntToString(n: int): (r: string)
    ensures |r| >= 1
    ensures r[0] == '-' <==> n < 0
  {
    if n < 0 then "-" + NatToString(-n) else NatToString(n)
  }

  /** The number a string of decimal digits denotes, read most significant first. */
  function DigitsValue(s: string): int
  {
    if s == [] then 0 else DigitsValue(s[..|s| - 1]) * 10 + (s[|s| - 1] as int - '0' as int)
  }

  /** The number an optionally signed decimal string denotes, as `Number(s)` reads it. */
  function ParseInt(s: string): int
  {
    if |s| > 0 && s[0] == '-' then -DigitsValue(s[1..]) else DigitsValue(s)
  }

  /** Reading the decimal text back gives the number, and only zero is written with a leading `0`. */
  lemma {:induction false} NatToStringValue(n: nat)
    ensures DigitsValue(NatToString(n)) == n
    ensures NatToString(n)[0] == '0' ==> n == 0
    decreases n
  {
    var r := NatToString(n);
    if n >= 10 {
      NatToStringValue(n / 10);
      var d := ['0' + (n % 10) as char];
      assert r == NatToString(n / 10) + d;
      assert r[..|r| - 1] == NatToString(n / 10);
      assert r[0] == NatToString(n / 10)[0];
    } else {
      assert r[..|r| - 1] == [];
    }
  }

  /** `String` of an integer reads back as that integer. */
  lemma IntToStringValue(n: int)
    ensures ParseInt(IntToString(n)) == n
  {
    if n < 0 {
      NatToStringValue(-n);
      assert IntToString(n)[1..] == NatToString(-n);
    } else {
      NatToStringValue(n);
    }
  }

  /** One point of the line chart: the label `S<week>` and the plotted number. */
  datatype ChartPoint = ChartPoint(name: string, value: Number)

  /** The sort key of `(a, b) => a.week - b.week`: ascending week. */
  function EntryWeek(e: WeeklyData): int
  {
    e.week
  }

  /** The first numeric value of the inputs in enumeration order, or 0 when there is none. */
  function FirstValue(inputs: Inputs): (r: Number)
    ensures inputs.fields == [] ==> r == Finite(0.0)
    ensures inputs.fields != [] ==> r == inputs.fields[0].value
  {
    if inputs.fields == [] then Finite(0.0) else inputs.fields[0].value
  }

  function ToPoint(e: WeeklyData): (r: ChartPoint)
    ensures r.name == "S" + IntToString(e.week) && r.value == FirstValue(e.inputs)
  {
    ChartPoint("S" + IntToString(e.week), FirstValue(e.inputs))
  }

  /**
   * The entries the chart plots: those of the primary metric `user.metrics[0]`, in ascending
   * week order; none when the user has no metric, where the panel cannot render.
   */
  function ChartEntries(user: User, state: AppState): (r: Option<seq<WeeklyData>>)
    ensures r.None? <==> user.metrics == []
    ensures r.Some? ==> SortedBy(r.value, EntryWeek)
    ensures r.Some? ==> multiset(r.value) == multiset(MetricEntries(user.metrics[0], EntriesOf(state, user.id)))
  {
    if user.metrics == [] then None
    else Some(SortBy(MetricEntries(user.metrics[0], EntriesOf(state, user.id)), EntryWeek))
  }

  /** `chartData`: one labelled point per entry of the primary metric, in week order. */
  function ChartData(user: User, state: AppState): (r: Option<seq<ChartPoint>>)
    ensures r.None? <==> user.metrics == []
    ensures r.Some? ==> |r.value| == |MetricEntries(user.metrics[0], EntriesOf(state, user.id))|
    ensures r.Some? ==> forall i :: 0 <= i < |r.value| ==> r.value[i] == ToPoint(ChartEntries(user, state).value[i])
  {
    match ChartEntries(user, state)
    case None => None
    case Some(es) => Some(seq(|es|, i requires 0 <= i < |es| => ToPoint(es[i])))
  }

  /**
   * The chart's points read left to right in week order, and every entry of the primary
   * metric is plotted exactly once.
   */
  lemma {:induction false} ChartIsChronological(user: User, state: AppState)
    requires user.metrics != []
    ensures forall i, j :: 0 <= i < j < |ChartEntries(user, state).value| ==>
      ChartEntries(user, state).value[i].week <= ChartEntries(user, state).value[j].week
    ensures forall e :: (e in MetricEntries(user.metrics[0], EntriesOf(state, user.id))
                     <==> e in ChartEntries(user, state).value)
  {
    var es := ChartEntries(user, state).value;
    var src := MetricEntries(user.metrics[0], EntriesOf(state, user.id));
    assert SortedBy(es, EntryWeek);
    forall e ensures e in src <==> e in es {
      assert e in src <==> e in multiset(src);
      assert e in es <==> e in multiset(es);
    }
  }

  // ---------------------------------------------------------------------------
  // the notes

  /** The predicate of `f => f.week === week`. */
  function WeekIs(week: int): Feedback -> bool
  {
    (f: Feedback) => f.week == week
  }

  /** `lastCommitment`: the first stored notes of the week before the current one. */
  function LastCommitment(state: AppState, userId: string): (r: Option<Feedback>)
    ensures r.Some? ==> r.value in FeedbackOf(state, userId) && r.value.week == state.currentWeek - 1
    ensures r.None? <==> forall i :: 0 <= i < |FeedbackOf(state, userId)| ==> FeedbackOf(state, userId)[i].week != state.currentWeek - 1
  {
    Find(FeedbackOf(state, userId), WeekIs(state.currentWeek - 1))
  }

  /** The load effect's lookup: the first stored notes of the current week. */
  function CurrentWeekFeedback(state: AppState, userId: string): (r: Option<Feedback>)
    ensures r.Some? ==> r.value in FeedbackOf(state, userId) && r.value.week == state.currentWeek
    ensures r.None? <==> forall i :: 0 <= i < |FeedbackOf(state, userId)| ==> FeedbackOf(state, userId)[i].week != state.currentWeek
  {
    Find(FeedbackOf(state, userId), WeekIs(state.currentWeek))
  }

  /** The form before anything is loaded: this week, three empty notes. */
  function InitialForm(currentWeek: int): (r: Feedback)
    ensures r.week == currentWeek && r.blockers == Some("") && r.learning == Some("") && r.commitment == Some("")
    ensures r.commitmentCompleted == None && r.timestamp == None
  {
    Feedback(currentWeek, Some(""), Some(""), Some(""), None, None)
  }

  /** JavaScript's truthiness of `existing.timestamp`: present and not the empty string. */
  predicate Stamped(f: Feedback)
  {
    f.timestamp.Some? && f.timestamp.value != ""
  }

  /** The timestamp of a submission, the `pt-BR` date formatting given as `formatted`. */
  function Stamp(formatted: string): string
  {
    "Alinhamento Registrado | " + formatted
  }

  /** The three text areas. */
  datatype NoteEdit = Blockers(text: string) | Learning(text: string) | Commitment(text: string)

  function EditNote(f: Feedback, edit: NoteEdit): (r: Feedback)
    ensures r.week == f.week && r.commitmentCompleted == f.commitmentCompleted && r.timestamp == f.timestamp
    ensures edit.Blockers? ==> r == f.(blockers := Some(edit.text))
    ensures edit.Learning? ==> r == f.(learning := Some(edit.text))
    ensures edit.Commitment? ==> r == f.(commitment := Some(edit.text))
  {
    match edit
    case Blockers(t) => f.(blockers := Some(t))
    case Learning(t) => f.(learning := Some(t))
    case Commitment(t) => f.(commitment := Some(t))
  }

  class OneOnOne {
    /** The session whose `appState` is the prop. */
    const app: App
    /** The user the panel is about. */
    const user: User
    var feedback: Feedback
    var lastSavedMessage: Option<string>

    constructor(app: App, user: User)
      ensures this.app == app && this.user == user
      ensures feedback == InitialForm(app.appState.currentWeek) && lastSavedMessage == None
    {
      this.app := app;
      this.user := user;
      feedback := InitialForm(app.appState.currentWeek);
      lastSavedMessage := None;
    }

    /** The load effect: stored notes of the current week replace the form, and their timestamp is shown. */
    method LoadEffect()
      modifies this
      ensures var existing := CurrentWeekFeedback(app.appState, user.id);
        (existing.None? ==> feedback == old(feedback) && lastSavedMessage == old(lastSavedMessage))
        && (existing.Some? ==>
              feedback == existing.value
              && lastSavedMessage == if Stamped(existing.value) then existing.value.timestamp else old(lastSavedMessage))
    {
      var existing := Find(FeedbackOf(app.appState, user.id), WeekIs(app.appState.currentWeek));
      if existing.Some? {
        feedback := existing.value;
        if Stamped(existing.value) {
          lastSavedMessage := existing.value.timestamp;
        }
      }
    }

    method HandleNoteChange(edit: NoteEdit)
      modifies this
      ensures feedback == EditNote(old(feedback), edit) && lastSavedMessage == old(lastSavedMessage)
    {
      feedback := EditNote(feedback, edit);
    }

    /**
     * "Salvar Alinhamento": the notes handed to `onSaveFeedback` are this week's, not yet
     * completed, stamped, and carry the form's three texts.
     */
    method HandleFeedbackSubmit(formatted: string) returns (payload: Feedback)
      modifies this
      ensures payload.week == app.appState.currentWeek
      ensures payload.blockers == old(feedback).blockers && payload.commitment == old(feedback).commitment
      ensures payload.learning == old(feedback).learning
      ensures payload.commitmentCompleted == Some(false) && payload.timestamp == Some(Stamp(formatted))
      ensures lastSavedMessage == Some(Stamp(formatted)) && feedback == old(feedback)
    {
      var timestampStr := Stamp(formatted);
      payload := Feedback(app.appState.currentWeek, feedback.blockers, feedback.commitment, feedback.learning,
                          Some(false), Some(timestampStr));
      lastSavedMessage := Some(timestampStr);
    }
  }
}
