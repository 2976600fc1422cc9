/**
 * components/CheckIn.tsx: the contributor's weekly wizard. One form per metric, saved
 * through `handleSaveMetric` for the current week; after the last metric, or when every
 * metric already has an entry this week, the completion message is shown.
 */
module CheckInComponent {
  import opened Wrappers
  import opened Seqs
  import opened Types
  import opened AppComponent

  /** `entries.some(e => e.week === week && e.inputs.metricId === metricId)`. */
  predicate SubmittedFor(state: AppState, userId: string, week: int, metricId: string)
  {
    exists j :: 0 <= j < |EntriesOf(state, userId)| && InCell(EntriesOf(state, userId)[j], week, metricId)
  }

  /** `hasSubmitted`: every metric of the user has an entry this week; vacuously true with none. */
  predicate HasSubmitted(user: User, state: AppState, currentWeek: int)
  {
    forall i :: 0 <= i < |user.metrics| ==> SubmittedFor(state, user.id, currentWeek, user.metrics[i].id)
  }

  /**
   * A save, tagged with its metric, marks its own cell as submitted and leaves every other
   * cell of every user as it was.
   */
  lemma {:induction false} SubmittedAfterSave(state: AppState, userId: string, week: int, metricId: string,
                                              inputs: Inputs, timestamp: string, u: string, w: int, m: string)
    requires inputs.metricId == Some(metricId)
    ensures SubmittedFor(UpdateEntry(state, userId, week, metricId, inputs, timestamp), u, w, m)
        <==> (u == userId && w == week && m == metricId) || SubmittedFor(state, u, w, m)
  {
    if u == userId {
      UpsertCellFilled(EntriesOf(state, userId), week, metricId, inputs, timestamp, w, m);
    }
  }

  /** The list-level fact behind `SubmittedAfterSave`: a cell is filled after the upsert iff it is the saved one or was before. */
  lemma UpsertCellFilled(existing: seq<WeeklyData>, week: int, metricId: string, inputs: Inputs, timestamp: string,
                         w: int, m: string)
    requires inputs.metricId == Some(metricId)
    ensures var r := Upsert(existing, week, metricId, inputs, timestamp);
      (exists j :: 0 <= j < |r| && InCell(r[j], w, m))
        <==> (w == week && m == metricId) || exists j :: 0 <= j < |existing| && InCell(existing[j], w, m)
  {
    var r := Upsert(existing, week, metricId, inputs, timestamp);
    if w == week && m == metricId {
      assert InCell(r[|r| - 1], w, m);
    } else {
      if exists j :: 0 <= j < |existing| && InCell(existing[j], w, m) {
        var j :| 0 <= j < |existing| && InCell(existing[j], w, m);
        assert existing[j] in r[..|r| - 1];
        var k :| 0 <= k < |r| - 1 && r[k] == existing[j];
      }
      if exists k :: 0 <= k < |r| && InCell(r[k], w, m) {
        var k :| 0 <= k < |r| && InCell(r[k], w, m);
        assert k < |r| - 1;
        assert r[k] in existing;
      }
    }
  }

  /**
   * The wizard run to its end: every metric of `ms`, in order, saved for `week` with its
   * own form, tagged with its id.
   */
  function SaveEach(state: AppState, userId: string, week: int, ms: seq<Metric>, forms: seq<seq<Field>>,
                    timestamp: string): (r: AppState)
    requires |forms| == |ms|
    ensures r.users == state.users && r.feedback == state.feedback && r.currentWeek == state.currentWeek
    decreases |ms|
  {
    if ms == [] then state
    else SaveEach(UpdateEntry(state, userId, week, ms[0].id, Inputs(Some(ms[0].id), forms[0]), timestamp),
                  userId, week, ms[1..], forms[1..], timestamp)
  }

  /** After the saves, a metric is submitted for the week exactly when it was saved or already was. */
  lemma {:induction false} SaveEachSubmitted(state: AppState, userId: string, week: int, ms: seq<Metric>,
                                             forms: seq<seq<Field>>, timestamp: string, m: string)
    requires |forms| == |ms|
    ensures SubmittedFor(SaveEach(state, userId, week, ms, forms, timestamp), userId, week, m)
        <==> (exists i :: 0 <= i < |ms| && ms[i].id == m) || SubmittedFor(state, userId, week, m)
    decreases |ms|
  {
    if ms != [] {
      var inputs := Inputs(Some(ms[0].id), forms[0]);
      var s1 := UpdateEntry(state, userId, week, ms[0].id, inputs, timestamp);
      assert SaveEach(state, userId, week, ms, forms, timestamp) == SaveEach(s1, userId, week, ms[1..], forms[1..], timestamp);
      SaveEachSubmitted(s1, userId, week, ms[1..], forms[1..], timestamp, m);
      SubmittedAfterSave(state, userId, week, ms[0].id, inputs, timestamp, userId, week, m);
      ExistsCons(ms, (x: Metric) => x.id == m);
    }
  }

  /**
   * A check-in run over all the user's metrics makes `hasSubmitted` hold for the week, whatever
   * was stored before; with no metrics it holds from the start.
   */
  lemma {:induction false} CheckInCompletesWeek(user: User, state: AppState, forms: seq<seq<Field>>, timestamp: string)
    requires |forms| == |user.metrics|
    ensures HasSubmitted(user, SaveEach(state, user.id, state.currentWeek, user.metrics, forms, timestamp),
                         state.currentWeek)
  {
    var r := SaveEach(state, user.id, state.currentWeek, user.metrics, forms, timestamp);
    forall i | 0 <= i < |user.metrics|
      ensures SubmittedFor(r, user.id, state.currentWeek, user.metrics[i].id)
    {
      SaveEachSubmitted(state, user.id, state.currentWeek, user.metrics, forms, timestamp, user.metrics[i].id);
    }
  }

  /** The keys of a metric's input fields. */
  function InputKeys(inputs: seq<InputConfig>): (r: set<string>)
    ensures forall k :: k in r <==> exists i :: 0 <= i < |inputs| && inputs[i].key == k
  {
    if inputs == [] then {}
    else
      var rest := InputKeys(inputs[1..]);
      assert forall i :: 0 < i < |inputs| ==> inputs[i] == inputs[1..][i - 1];
      {inputs[0].key} + rest
  }

  /** No two input fields of a metric share a key. */
  predicate DistinctKeys(inputs: seq<InputConfig>)
  {
    forall i, j :: 0 <= i < j < |inputs| ==> inputs[i].key != inputs[j].key
  }

  lemma {:induction false} InputKeysCount(inputs: seq<InputConfig>)
    requires DistinctKeys(inputs)
    ensures |InputKeys(inputs)| == |inputs|
  {
    if inputs != [] {
      InputKeysCount(inputs[1..]);
      assert inputs[0].key !in InputKeys(inputs[1..]) by {
        forall i | 0 <= i < |inputs[1..]|
          ensures inputs[1..][i].key != inputs[0].key
        {
          assert inputs[1..][i] == inputs[i + 1];
        }
      }
    }
  }

  lemma {:induction false} SubsetCount<T>(a: set<T>, b: set<T>)
    requires a <= b
    ensures |a| <= |b|
  {
    if a != {} {
      var x :| x in a;
      SubsetCount(a - {x}, b - {x});
    }
  }

  /** `Object.keys(formState).length < activeMetric.inputs.length`. */
  predicate Incomplete(formState: seq<Field>, metric: Metric)
  {
    |Keys(formState)| < |metric.inputs|
  }

  /**
   * Once every input field of the metric has been typed into, the button is enabled; the
   * fresh form of a metric that asks for something keeps it disabled.
   */
  lemma FilledFormEnablesSubmit(formState: seq<Field>, metric: Metric)
    requires DistinctKeys(metric.inputs)
    ensures InputKeys(metric.inputs) <= Keys(formState) ==> !Incomplete(formState, metric)
    ensures Incomplete([], metric) <==> |metric.inputs| > 0
  {
    if InputKeys(metric.inputs) <= Keys(formState) {
      InputKeysCount(metric.inputs);
      SubsetCount(InputKeys(metric.inputs), Keys(formState));
    }
  }

  /** The number `handleInputChange` stores: `parseFloat(value) || 0`, so NaN becomes 0. */
  function OrZero(parsed: Number): (r: real)
    ensures parsed.NaN? ==> r == 0.0
    ensures parsed.Finite? ==> r == parsed.value
  {
    match parsed
    case Finite(v) => v
    case NaN => 0.0
  }

  class CheckIn {
    /** The session: its user is the one checking in, its `handleSaveMetric` is `onSave`. */
    const app: App
    var activeMetricIndex: nat
    /** `formState`: only numbers are stored, never NaN. */
    var formState: seq<Field>
    var completed: bool

    constructor(app: App)
      ensures this.app == app && activeMetricIndex == 0 && formState == [] && !completed
    {
      this.app := app;
      activeMetricIndex := 0;
      formState := [];
      completed := false;
    }

    function Metrics(): seq<Metric>
      reads this, app
      requires app.user.Some?
    {
      app.user.value.metrics
    }

    /** `handleInputChange`, the parse of the typed text given as `parsed`. */
    method HandleInputChange(key: string, parsed: Number)
      modifies this
      ensures formState == Assign(old(formState), key, Finite(OrZero(parsed)))
      ensures Get(formState, key) == Some(Finite(OrZero(parsed)))
      ensures forall k :: k != key ==> Get(formState, k) == Get(old(formState), k)
      ensures activeMetricIndex == old(activeMetricIndex) && completed == old(completed)
    {
      formState := Assign(formState, key, Finite(OrZero(parsed)));
    }

    /**
     * "Salvar & Próxima" / "Finalizar Check-in": saves the active metric's form, tagged with
     * its id, then moves to the next metric, or finishes on the last one.
     */
    method HandleNext(timestamp: string)
      requires app.user.Some? && activeMetricIndex < |Metrics()|
      modifies this, app
      ensures var m := old(Metrics())[old(activeMetricIndex)];
        app.appState == UpdateEntry(old(app.appState), old(app.user).value.id, old(app.appState).currentWeek,
                                    m.id, Inputs(Some(m.id), old(formState)), timestamp)
      ensures app.user == old(app.user) && app.viewMode == old(app.viewMode) && app.isDarkMode == old(app.isDarkMode)
      ensures old(activeMetricIndex) < |Metrics()| - 1 ==>
        activeMetricIndex == old(activeMetricIndex) + 1 && formState == [] && completed == old(completed)
      ensures old(activeMetricIndex) == |Metrics()| - 1 ==>
        activeMetricIndex == old(activeMetricIndex) && formState == old(formState) && completed
      ensures activeMetricIndex < |Metrics()|
      ensures old(activeMetricIndex) == |Metrics()| - 1 ==> ShowsCompletion()
      ensures old(activeMetricIndex) == |Metrics()| - 1
              && (forall k :: 0 <= k < old(activeMetricIndex) ==>
                    SubmittedFor(old(app.appState), app.user.value.id, app.appState.currentWeek, Metrics()[k].id))
          ==> HasSubmitted(app.user.value, app.appState, app.appState.currentWeek)
      ensures (forall k :: 0 <= k < old(activeMetricIndex) ==>
                 SubmittedFor(old(app.appState), app.user.value.id, app.appState.currentWeek, Metrics()[k].id))
          ==> (forall k :: 0 <= k <= old(activeMetricIndex) ==>
                 SubmittedFor(app.appState, app.user.value.id, app.appState.currentWeek, Metrics()[k].id))
    {
      var activeMetric := app.user.value.metrics[activeMetricIndex];
      ghost var before, uid, ms := app.appState, app.user.value.id, app.user.value.metrics;
      ghost var inputs := Inputs(Some(activeMetric.id), formState);
      app.HandleSaveMetric(activeMetric.id, Inputs(Some(activeMetric.id), formState), timestamp);
      assert app.appState == UpdateEntry(before, uid, before.currentWeek, activeMetric.id, inputs, timestamp);
      forall k | 0 <= k <= activeMetricIndex
        ensures SubmittedFor(app.appState, uid, before.currentWeek, ms[k].id)
             <== (k == activeMetricIndex || SubmittedFor(before, uid, before.currentWeek, ms[k].id))
      {
        SubmittedAfterSave(before, uid, before.currentWeek, activeMetric.id, inputs, timestamp,
                           uid, before.currentWeek, ms[k].id);
      }
      if activeMetricIndex < |app.user.value.metrics| - 1 {
        activeMetricIndex := activeMetricIndex + 1;
        formState := [];
      } else {
        completed := true;
      }
    }

    /** The submit button is disabled while fewer keys are filled than the metric has inputs. */
    predicate SubmitDisabled()
      reads this, app
      requires app.user.Some? && activeMetricIndex < |Metrics()|
    {
      Incomplete(formState, Metrics()[activeMetricIndex])
    }

    /** The completion message replaces the form once finished, or when the week is already submitted. */
    predicate ShowsCompletion()
      reads this, app
      requires app.user.Some?
    {
      completed || HasSubmitted(app.user.value, app.appState, app.appState.currentWeek)
    }
  }
}
