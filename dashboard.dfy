/**
 * components/Dashboard.tsx: the partners' cockpit. A table with one row per (user, metric),
 * a cell per week of the quarter and the traffic light of the metric; the cell editor that
 * writes through `handleUpdateEntry`; the latest one-on-one notes of every user; and the
 * overlays for the one-on-one and the team administration.
 */
module DashboardComponent {
  import opened Wrappers
  import opened Seqs
  import opened Types
  import opened Calculator
  import opened AppComponent

  /** The week columns of the table, `Array.from({length: 13}, (_, i) => i + 1)`. */
  function WeekColumns(): (r: seq<int>)
    ensures |r| == 13
    ensures forall i :: 0 <= i < |r| ==> r[i] == i + 1
  {
    seq(13, i => i + 1)
  }

  /** The columns are exactly the weeks of the quarter. */
  lemma WeekColumnsCoverQuarter(w: int)
    ensures w in WeekColumns() <==> 1 <= w <= 13
  {
    if 1 <= w <= 13 {
      assert WeekColumns()[w - 1] == w;
    }
  }

  /** The predicate of the cell lookups: `e => e.week === week && e.inputs.metricId === metricId`. */
  function InCellOf(week: int, metricId: string): WeeklyData -> bool
  {
    (e: WeeklyData) => InCell(e, week, metricId)
  }

  /** The entry a week cell shows: the first of the user's entries in that cell. */
  function CellEntry(state: AppState, userId: string, week: int, metricId: string): (r: Option<WeeklyData>)
    ensures r.None? <==> forall i :: 0 <= i < |EntriesOf(state, userId)| ==> !InCell(EntriesOf(state, userId)[i], week, metricId)
    ensures r.Some? ==> r.value in EntriesOf(state, userId) && InCell(r.value, week, metricId)
  {
    Find(EntriesOf(state, userId), InCellOf(week, metricId))
  }

  /** A week cell shows '-' exactly when the user has no entry for that week and metric. */
  predicate ShowsDash(state: AppState, userId: string, week: int, metricId: string)
  {
    CellEntry(state, userId, week, metricId).None?
  }

  /** `getEntryInputs`: the inputs of the cell's first entry, or the empty record. */
  function EntryInputs(state: AppState, userId: string, week: int, metricId: string): (r: Inputs)
    ensures ShowsDash(state, userId, week, metricId) ==> r == NoInputs
    ensures !ShowsDash(state, userId, week, metricId) ==> r == CellEntry(state, userId, week, metricId).value.inputs
  {
    match CellEntry(state, userId, week, metricId)
    case Some(entry) => entry.inputs
    case None => NoInputs
  }

  /** What is read back from a cell is what was last saved to it, once tagged with its metric. */
  lemma {:induction false} EntryInputsAfterUpdate(state: AppState, userId: string, week: int, metricId: string,
                                                  inputs: Inputs, timestamp: string)
    requires inputs.metricId == Some(metricId)
    ensures EntryInputs(UpdateEntry(state, userId, week, metricId, inputs, timestamp), userId, week, metricId) == inputs
    ensures !ShowsDash(UpdateEntry(state, userId, week, metricId, inputs, timestamp), userId, week, metricId)
  {
    var r := Upsert(EntriesOf(state, userId), week, metricId, inputs, timestamp);
    UpsertLeavesOneEntry(EntriesOf(state, userId), week, metricId, inputs, timestamp);
    FindIsFirst(r, InCellOf(week, metricId), |r| - 1);
  }

  /** Saving a cell leaves every other cell's lookup as it was. */
  lemma {:induction false} OtherCellsUnchanged(state: AppState, userId: string, week: int, metricId: string,
                                               inputs: Inputs, timestamp: string, u: string, w: int, m: string)
    requires u != userId || w != week || m != metricId
    requires inputs.metricId == Some(metricId)
    ensures CellEntry(UpdateEntry(state, userId, week, metricId, inputs, timestamp), u, w, m)
         == CellEntry(state, u, w, m)
  {
    if u == userId {
      var existing := EntriesOf(state, userId);
      var kept := Filter(existing, OutsideCell(week, metricId));
      var n := WeeklyData(week, inputs, 0.0, timestamp);
      var q := InCellOf(w, m);
      // entries of the cell (w, m) all lie outside (week, metricId), so none is dropped
      FindThroughFilter(existing, OutsideCell(week, metricId), q);
      assert !q(n);
      FindAppendMiss(kept, [n], q);
    }
  }

  /** A cell is editable by partners only, and only up to the current week. */
  predicate IsEditable(role: UserRole, week: int, currentWeek: int)
  {
    role == Partner && week <= currentWeek
  }

  /** The traffic light of a (user, metric) row. */
  function RowStatus(state: AppState, userId: string, metric: Metric): (r: Outcome)
    ensures r.Computed? && r.status == Gray <==> MetricEntries(metric, EntriesOf(state, userId)) == []
  {
    MetricStatus(metric, EntriesOf(state, userId))
  }

  /** The colour class of a computed row: neutral exactly when the user has no entry for the metric. */
  function RowColor(state: AppState, userId: string, metric: Metric): (r: Option<string>)
    ensures r.None? <==> RowStatus(state, userId, metric).TypeError?
    ensures r == Some("bg-slate-200") <==> RowStatus(state, userId, metric) == Computed(0.0, Gray)
  {
    match RowStatus(state, userId, metric)
    case Computed(_, status) => Some(StatusColor(StatusName(status)))
    case TypeError => None
  }

  // ---------------------------------------------------------------------------
  // latest feedback

  /** The sort key of `(a, b) => b.week - a.week`: descending week. */
  function DescendingWeek(f: Feedback): int
  {
    -f.week
  }

  /** `[...feedbacks].sort((a, b) => b.week - a.week)[0]`, the stored list itself untouched. */
  function LatestFeedback(feedbacks: seq<Feedback>): (r: Option<Feedback>)
    ensures r.None? <==> feedbacks == []
  {
    if feedbacks == [] then None else Some(SortBy(feedbacks, DescendingWeek)[0])
  }

  /**
   * The latest feedback has the greatest week, and among the notes of that week it is the
   * first one stored (the sort is stable).
   */
  lemma {:induction false} LatestFeedbackIsLatest(feedbacks: seq<Feedback>)
    requires feedbacks != []
    ensures LatestFeedback(feedbacks).Some?
    ensures exists k :: (0 <= k < |feedbacks| && LatestFeedback(feedbacks).value == feedbacks[k]
      && (forall j :: 0 <= j < |feedbacks| ==> feedbacks[j].week <= feedbacks[k].week)
      && (forall j :: 0 <= j < k ==> feedbacks[j].week < feedbacks[k].week))
  {
    var k := SortByHead(feedbacks, DescendingWeek);
    assert forall j :: 0 <= j < |feedbacks| ==> feedbacks[j].week <= feedbacks[k].week by {
      forall j | 0 <= j < |feedbacks| ensures feedbacks[j].week <= feedbacks[k].week {
        assert DescendingWeek(feedbacks[k]) <= DescendingWeek(feedbacks[j]);
      }
    }
    assert forall j :: 0 <= j < k ==> feedbacks[j].week < feedbacks[k].week by {
      forall j | 0 <= j < k ensures feedbacks[j].week < feedbacks[k].week {
        assert DescendingWeek(feedbacks[k]) < DescendingWeek(feedbacks[j]);
      }
    }
  }

  // ---------------------------------------------------------------------------
  // the component

  /** The cell being edited: whose, which week, which metric, and the inputs it held when opened. */
  datatype EditingCell = EditingCell(userId: string, week: int, metric: Metric, currentInputs: Inputs)

  /** What the component renders: an overlay, or the table. */
  datatype View = OneOnOneView(user: User) | AdminView | TableView

  class Dashboard {
    /** The session whose `handleUpdateEntry`, `handleUpdateUsers` and logout the props carry. */
    const app: App
    var selectedUserFor1on1: Option<User>
    var showAdminPanel: bool
    var editingCell: Option<EditingCell>
    var editForm: Inputs

    constructor(app: App)
      ensures this.app == app
      ensures selectedUserFor1on1 == None && !showAdminPanel && editingCell == None && editForm == NoInputs
    {
      this.app := app;
      selectedUserFor1on1 := None;
      showAdminPanel := false;
      editingCell := None;
      editForm := NoInputs;
    }

    /** The one-on-one overlay wins over the administration panel, which wins over the table. */
    function CurrentView(): (r: View)
      reads this
      ensures r.OneOnOneView? <==> selectedUserFor1on1.Some?
      ensures r == AdminView <==> selectedUserFor1on1.None? && showAdminPanel
    {
      if selectedUserFor1on1.Some? then OneOnOneView(selectedUserFor1on1.value)
      else if showAdminPanel then AdminView
      else TableView
    }

    /** The logged-in partner the cockpit is rendered for. */
    function CurrentUser(): User
      reads this, app
      requires app.user.Some?
    {
      app.user.value
    }

    /** Opens the editor on a cell, a partner-only action up to the current week. */
    method HandleCellClick(userId: string, week: int, metric: Metric)
      requires app.user.Some?
      modifies this
      ensures !IsEditable(CurrentUser().role, week, app.appState.currentWeek) ==>
        editingCell == old(editingCell) && editForm == old(editForm)
      ensures IsEditable(CurrentUser().role, week, app.appState.currentWeek) ==>
        var inputs := EntryInputs(app.appState, userId, week, metric.id);
        editingCell == Some(EditingCell(userId, week, metric, inputs)) && editForm == inputs
      ensures selectedUserFor1on1 == old(selectedUserFor1on1) && showAdminPanel == old(showAdminPanel)
    {
      if app.user.value.role != Partner {
        return;
      }
      if week > app.appState.currentWeek {
        return;
      }
      var currentInputs := EntryInputs(app.appState, userId, week, metric.id);
      editingCell := Some(EditingCell(userId, week, metric, currentInputs));
      editForm := currentInputs;
    }

    /** An input of the editor: `{...editForm, [key]: parseFloat(text)}`, the parse given as `parsed`. */
    method HandleEditFormChange(key: string, parsed: Number)
      modifies this
      ensures editForm == old(editForm).(fields := Assign(old(editForm).fields, key, parsed))
      ensures editingCell == old(editingCell)
      ensures selectedUserFor1on1 == old(selectedUserFor1on1) && showAdminPanel == old(showAdminPanel)
    {
      editForm := editForm.(fields := Assign(editForm.fields, key, parsed));
    }

    /** "Cancelar". */
    method CancelEdit()
      modifies this
      ensures editingCell == None
      ensures editForm == old(editForm)
      ensures selectedUserFor1on1 == old(selectedUserFor1on1) && showAdminPanel == old(showAdminPanel)
    {
      editingCell := None;
    }

    /** "Salvar": upserts the form, tagged with the edited metric, into the edited cell. */
    method HandleSaveEdit(timestamp: string)
      modifies this, app
      ensures old(editingCell).None? ==> app.appState == old(app.appState)
      ensures old(editingCell).Some? ==>
        var c := old(editingCell).value;
        app.appState == UpdateEntry(old(app.appState), c.userId, c.week, c.metric.id, Tagged(old(editForm), c.metric.id), timestamp)
      ensures editingCell == None
      ensures editForm == old(editForm)
      ensures app.user == old(app.user) && app.viewMode == old(app.viewMode) && app.isDarkMode == old(app.isDarkMode)
      ensures selectedUserFor1on1 == old(selectedUserFor1on1) && showAdminPanel == old(showAdminPanel)
    {
      if editingCell.Some? {
        var c := editingCell.value;
        app.HandleUpdateEntry(c.userId, c.week, c.metric.id, Tagged(editForm, c.metric.id), timestamp);
        editingCell := None;
      }
    }

    /**
     * The `onUpdateUsers` handed to the administration panel: the users are replaced and the
     * session ends when the logged-in user is no longer among them.
     */
    method OnAdminUpdateUsers(updatedUsers: seq<User>)
      requires app.user.Some?
      modifies app
      ensures app.appState == old(app.appState).(users := updatedUsers)
      ensures app.user.None? <==> forall i :: 0 <= i < |updatedUsers| ==> updatedUsers[i].id != old(app.user).value.id
      ensures app.user.Some? ==> app.user == RefreshedUser(old(app.user), updatedUsers)
      ensures app.viewMode == old(app.viewMode) && app.isDarkMode == old(app.isDarkMode)
    {
      var currentUser := app.user.value;
      app.HandleUpdateUsers(updatedUsers);
      if Find(updatedUsers, HasId(currentUser.id)).None? {
        app.Logout();
      }
    }

    method OpenOneOnOne(user: User)
      modifies this
      ensures selectedUserFor1on1 == Some(user) && CurrentView() == OneOnOneView(user)
      ensures showAdminPanel == old(showAdminPanel) && editingCell == old(editingCell) && editForm == old(editForm)
    {
      selectedUserFor1on1 := Some(user);
    }

    method CloseOneOnOne()
      modifies this
      ensures selectedUserFor1on1 == None
      ensures showAdminPanel == old(showAdminPanel) && editingCell == old(editingCell) && editForm == old(editForm)
    {
      selectedUserFor1on1 := None;
    }

    method SetShowAdminPanel(show: bool)
      modifies this
      ensures showAdminPanel == show
      ensures selectedUserFor1on1 == old(selectedUserFor1on1) && editingCell == old(editingCell) && editForm == old(editForm)
    {
      showAdminPanel := show;
    }
  }
}
