/**
 * App.tsx: the session (who is logged in, which view is open, the theme) and the handlers
 * that change the application state: login routing, password reset, the weekly-entry
 * upsert and the replacement of the user list.
 */
module AppComponent {
  import opened Wrappers
  import opened Seqs
  import opened Types

  /** `viewMode`: the contributor's check-in wizard or the partner's cockpit. */
  datatype ViewMode = CheckInView | DashboardView

  /** What the component renders. */
  datatype Screen = LoginScreen | CheckInScreen | DashboardScreen

  /** `handleLogin`'s routing: partners land on the cockpit, every other role on the check-in. */
  function ViewFor(role: UserRole): (r: ViewMode)
    ensures r == DashboardView <==> role == Partner
    ensures r == CheckInView <==> role != Partner
  {
    if role == Partner then DashboardView else CheckInView
  }

  // ---------------------------------------------------------------------------
  // handleResetPassword

  /** `users.map(u => u.id === userId ? {...u, password: newPass} : u)`. */
  function ResetPassword(users: seq<User>, userId: string, newPass: string): (r: seq<User>)
    ensures |r| == |users|
    ensures forall i :: 0 <= i < |r| && users[i].id == userId ==> r[i] == users[i].(password := Some(newPass))
    ensures forall i :: 0 <= i < |r| && users[i].id != userId ==> r[i] == users[i]
  {
    seq(|users|, i requires 0 <= i < |users| => if users[i].id == userId then users[i].(password := Some(newPass)) else users[i])
  }

  /** A password reset keeps every user's id, so every later lookup by id finds the same position. */
  lemma ResetPasswordKeepsIds(users: seq<User>, userId: string, newPass: string, i: nat)
    requires i < |users|
    ensures ResetPassword(users, userId, newPass)[i].id == users[i].id
    ensures ResetPassword(users, userId, newPass)[i].(password := users[i].password) == users[i]
  {
  }

  // ---------------------------------------------------------------------------
  // handleUpdateEntry

  /** The entry belongs to the cell (week, metricId). */
  predicate InCell(e: WeeklyData, week: int, metricId: string)
  {
    e.week == week && e.inputs.metricId == Some(metricId)
  }

  /** The upsert's filter: `e => !(e.week === week && e.inputs.metricId === metricId)`. */
  function OutsideCell(week: int, metricId: string): WeeklyData -> bool
  {
    (e: WeeklyData) => !InCell(e, week, metricId)
  }

  /**
   * `[...existingEntries.filter(outside the cell), newEntry]`: every entry of the cell is
   * dropped, the others keep their order, and the new entry, whose `calculatedValue` is 0,
   * comes last.
   */
  function Upsert(existing: seq<WeeklyData>, week: int, metricId: string, inputs: Inputs, timestamp: string): (r: seq<WeeklyData>)
    ensures |r| >= 1 && r[|r| - 1] == WeeklyData(week, inputs, 0.0, timestamp)
    ensures forall i :: 0 <= i < |r| - 1 ==> !InCell(r[i], week, metricId) && r[i] in existing
    ensures forall i :: 0 <= i < |existing| && !InCell(existing[i], week, metricId) ==> existing[i] in r[..|r| - 1]
  {
    Filter(existing, OutsideCell(week, metricId)) + [WeeklyData(week, inputs, 0.0, timestamp)]
  }

  /**
   * The upsert counts: an entry of the cell is no longer listed (unless it is the new one),
   * every other entry is listed as often as before, and the new entry once more.
   */
  lemma UpsertCounts(existing: seq<WeeklyData>, week: int, metricId: string, inputs: Inputs, timestamp: string,
                     e: WeeklyData)
    ensures multiset(Upsert(existing, week, metricId, inputs, timestamp))[e]
         == (if InCell(e, week, metricId) then 0 else multiset(existing)[e])
            + (if e == WeeklyData(week, inputs, 0.0, timestamp) then 1 else 0)
  {
    FilterCount(existing, OutsideCell(week, metricId), e);
  }

  /** The entries kept by the upsert stand in the order they stood in before. */
  lemma {:induction false} UpsertKeepsOrder(existing: seq<WeeklyData>, week: int, metricId: string, inputs: Inputs, timestamp: string)
    returns (idx: seq<nat>)
    ensures |idx| == |Upsert(existing, week, metricId, inputs, timestamp)| - 1
    ensures forall k :: 0 <= k < |idx| ==>
      idx[k] < |existing| && Upsert(existing, week, metricId, inputs, timestamp)[k] == existing[idx[k]]
    ensures forall k, l :: 0 <= k < l < |idx| ==> idx[k] < idx[l]
  {
    idx := FilterKeepsOrder(existing, OutsideCell(week, metricId));
  }

  /**
   * With the inputs tagged by the metric, the cell then holds exactly one entry, the new
   * one, carrying the new inputs.
   */
  lemma UpsertLeavesOneEntry(existing: seq<WeeklyData>, week: int, metricId: string, inputs: Inputs, timestamp: string)
    requires inputs.metricId == Some(metricId)
    ensures var r := Upsert(existing, week, metricId, inputs, timestamp);
      forall i :: 0 <= i < |r| ==> (InCell(r[i], week, metricId) <==> i == |r| - 1)
    ensures var r := Upsert(existing, week, metricId, inputs, timestamp);
      r[|r| - 1].inputs == inputs
  {
  }

  /** With the inputs tagged by the metric, a second upsert of the same cell overrides the first. */
  lemma {:induction false} UpsertTwice(existing: seq<WeeklyData>, week: int, metricId: string,
                                       first: Inputs, t1: string, second: Inputs, t2: string)
    requires first.metricId == Some(metricId)
    ensures Upsert(Upsert(existing, week, metricId, first, t1), week, metricId, second, t2)
         == Upsert(existing, week, metricId, second, t2)
  {
    var p := OutsideCell(week, metricId);
    var kept := Filter(existing, p);
    var n1 := WeeklyData(week, first, 0.0, t1);
    FilterAppend(kept, [n1], p);
    FilterIdempotent(existing, p);
    assert Filter([n1], p) == [] by {
      assert [n1][1..] == [];
    }
  }

  /** No two entries share a week and a metric tag. */
  predicate UniqueCells(es: seq<WeeklyData>)
  {
    forall i, j :: 0 <= i < j < |es| ==> !(es[i].week == es[j].week && es[i].inputs.metricId == es[j].inputs.metricId)
  }

  /** An upsert with inputs tagged by the metric keeps the entries unique per (week, metric). */
  lemma {:induction false} UpsertKeepsUnique(existing: seq<WeeklyData>, week: int, metricId: string, inputs: Inputs, timestamp: string)
    requires UniqueCells(existing)
    requires inputs.metricId == Some(metricId)
    ensures UniqueCells(Upsert(existing, week, metricId, inputs, timestamp))
  {
    var r := Upsert(existing, week, metricId, inputs, timestamp);
    var idx := UpsertKeepsOrder(existing, week, metricId, inputs, timestamp);
    forall i, j | 0 <= i < j < |r|
      ensures !(r[i].week == r[j].week && r[i].inputs.metricId == r[j].inputs.metricId)
    {
      if j < |r| - 1 {
        assert r[i] == existing[idx[i]] && r[j] == existing[idx[j]] && idx[i] < idx[j];
      } else {
        assert !InCell(r[i], week, metricId);
      }
    }
  }

  /**
   * `handleUpdateEntry` on the whole state: the user's list (empty when absent) is replaced
   * by the upserted one; other users' lists, the users, the feedback and the week stay.
   */
  function UpdateEntry(state: AppState, userId: string, week: int, metricId: string, inputs: Inputs, timestamp: string): (r: AppState)
    ensures r.users == state.users && r.feedback == state.feedback && r.currentWeek == state.currentWeek
    ensures r.entries.Keys == state.entries.Keys + {userId}
    ensures EntriesOf(r, userId) == Upsert(EntriesOf(state, userId), week, metricId, inputs, timestamp)
    ensures forall u :: u != userId ==> EntriesOf(r, u) == EntriesOf(state, u)
    ensures forall u :: u != userId && u in state.entries ==> r.entries[u] == state.entries[u]
  {
    state.(entries := state.entries[userId := Upsert(EntriesOf(state, userId), week, metricId, inputs, timestamp)])
  }

  // ---------------------------------------------------------------------------
  // handleUpdateUsers

  /** The predicate of `updatedUsers.find(u => u.id === id)`. */
  function HasId(id: string): User -> bool
  {
    (u: User) => u.id == id
  }

  /** The session user after `handleUpdateUsers`: the fresh copy with the same id, or the old one when that id is gone. */
  function RefreshedUser(current: Option<User>, updated: seq<User>): (r: Option<User>)
    ensures current.None? ==> r.None?
    ensures current.Some? ==> r.Some? && r.value.id == current.value.id
    ensures current.Some? && (forall i :: 0 <= i < |updated| ==> updated[i].id != current.value.id) ==> r == current
    ensures current.Some? && (exists i :: 0 <= i < |updated| && updated[i].id == current.value.id) ==> r.value in updated
  {
    match current
    case None => None
    case Some(u) =>
      match Find(updated, HasId(u.id))
      case Some(found) => Some(found)
      case None => current
  }

  /** The refreshed user is the first one in the new list carrying the id. */
  lemma RefreshedUserIsFirst(u: User, updated: seq<User>, i: nat)
    requires i < |updated| && updated[i].id == u.id
    requires forall j :: 0 <= j < i ==> updated[j].id != u.id
    ensures RefreshedUser(Some(u), updated) == Some(updated[i])
  {
    FindIsFirst(updated, HasId(u.id), i);
  }

  // ---------------------------------------------------------------------------
  // the session

  class App {
    var user: Option<User>
    var appState: AppState
    var viewMode: ViewMode
    var isDarkMode: bool

    /** The initial state: nobody logged in, the check-in view selected, the light theme. */
    constructor(initial: AppState)
      ensures user == None && appState == initial && viewMode == CheckInView && !isDarkMode
    {
      user := None;
      appState := initial;
      viewMode := CheckInView;
      isDarkMode := false;
    }

    /** The screen the component renders for its state. */
    function CurrentScreen(): (r: Screen)
      reads this
      ensures r == LoginScreen <==> user.None?
      ensures r == DashboardScreen <==> user.Some? && viewMode == DashboardView
    {
      if user.None? then LoginScreen
      else if viewMode.CheckInView? then CheckInScreen
      else DashboardScreen
    }

    /** The mount effect: the dark theme is switched on when the system prefers it. */
    method InitTheme(prefersDark: bool)
      modifies this
      ensures isDarkMode == (old(isDarkMode) || prefersDark)
      ensures user == old(user) && appState == old(appState) && viewMode == old(viewMode)
    {
      if prefersDark {
        isDarkMode := true;
      }
    }

    method ToggleTheme()
      modifies this
      ensures isDarkMode == !old(isDarkMode)
      ensures user == old(user) && appState == old(appState) && viewMode == old(viewMode)
    {
      isDarkMode := !isDarkMode;
    }

    method HandleLogin(selectedUser: User)
      modifies this
      ensures user == Some(selectedUser)
      ensures viewMode == ViewFor(selectedUser.role)
      ensures selectedUser.role == Partner ==> CurrentScreen() == DashboardScreen
      ensures selectedUser.role != Partner ==> CurrentScreen() == CheckInScreen
      ensures appState == old(appState) && isDarkMode == old(isDarkMode)
    {
      user := Some(selectedUser);
      if selectedUser.role == Partner {
        viewMode := DashboardView;
      } else {
        viewMode := CheckInView;
      }
    }

    /** "SAIR" and the cockpit's logout: back to the login screen. */
    method Logout()
      modifies this
      ensures user == None && CurrentScreen() == LoginScreen
      ensures appState == old(appState) && viewMode == old(viewMode) && isDarkMode == old(isDarkMode)
    {
      user := None;
    }

    /** "Ir para Cockpit" and "Meu Check-in". */
    method SetViewMode(mode: ViewMode)
      modifies this
      ensures viewMode == mode
      ensures user == old(user) && appState == old(appState) && isDarkMode == old(isDarkMode)
    {
      viewMode := mode;
    }

    method HandleResetPassword(userId: string, newPass: string)
      modifies this
      ensures appState == old(appState).(users := ResetPassword(old(appState).users, userId, newPass))
      ensures user == old(user) && viewMode == old(viewMode) && isDarkMode == old(isDarkMode)
    {
      appState := appState.(users := ResetPassword(appState.users, userId, newPass));
    }

    method HandleUpdateEntry(userId: string, week: int, metricId: string, inputs: Inputs, timestamp: string)
      modifies this
      ensures appState == UpdateEntry(old(appState), userId, week, metricId, inputs, timestamp)
      ensures user == old(user) && viewMode == old(viewMode) && isDarkMode == old(isDarkMode)
    {
      var existingEntries := EntriesOf(appState, userId);
      var filtered := Filter(existingEntries, OutsideCell(week, metricId));
      var newEntry := WeeklyData(week, inputs, 0.0, timestamp);
      appState := appState.(entries := appState.entries[userId := filtered + [newEntry]]);
    }

    /** Saves the logged-in user's answers for the current week; without a session nothing happens. */
    method HandleSaveMetric(metricId: string, inputs: Inputs, timestamp: string)
      modifies this
      ensures old(user).None? ==> appState == old(appState)
      ensures old(user).Some? ==>
        appState == UpdateEntry(old(appState), old(user).value.id, old(appState).currentWeek, metricId, inputs, timestamp)
      ensures user == old(user) && viewMode == old(viewMode) && isDarkMode == old(isDarkMode)
    {
      if user.None? {
        return;
      }
      HandleUpdateEntry(user.value.id, appState.currentWeek, metricId, inputs, timestamp);
    }

    method HandleUpdateUsers(updatedUsers: seq<User>)
      modifies this
      ensures appState == old(appState).(users := updatedUsers)
      ensures user == RefreshedUser(old(user), updatedUsers)
      ensures viewMode == old(viewMode) && isDarkMode == old(isDarkMode)
    {
      appState := appState.(users := updatedUsers);
      if user.Some? {
        var freshUser := Find(updatedUsers, HasId(user.value.id));
        if freshUser.Some? {
          user := freshUser;
        }
      }
    }
  }
}
