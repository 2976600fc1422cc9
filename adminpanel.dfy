/**
 * components/AdminPanel.tsx: team administration. A list of the users and an editor for a
 * copy of one of them (its profile and its metrics); saving or deleting hands the new
 * list to the cockpit's `onUpdateUsers`.
 */
module AdminPanelComponent {
  import opened Wrappers
  import opened Seqs
  import opened Types
  import opened Calculator
  import opened AppComponent
  import opened DashboardComponent

  /** `createNewUser`, with the `Date.now()` id and the avatar URL built from it given as parameters. */
  function NewUserTemplate(id: string, avatar: string): (r: User)
    ensures r.id == id && r.avatar == avatar
    ensures r.role == Contributor && r.password == Some("123") && r.metrics == []
    ensures r.name == "" && r.roleTitle == ""
  {
    User(id, "", Contributor, avatar, "", [], Some("123"))
  }

  // ---------------------------------------------------------------------------
  // the user list

  /** The predicate of `users.filter(u => u.id !== userId)`. */
  function NotId(id: string): User -> bool
  {
    (u: User) => u.id != id
  }

  /** `handleDeleteUser`'s new list: every user with that id removed, the others in order. */
  function DeleteUser(users: seq<User>, userId: string): (r: seq<User>)
    ensures forall i :: 0 <= i < |r| ==> r[i].id != userId && r[i] in users
    ensures forall i :: 0 <= i < |users| && users[i].id != userId ==> users[i] in r
  {
    Filter(users, NotId(userId))
  }

  /** An id stays in the list after a deletion exactly when it is not the deleted one and was there. */
  lemma DeleteUserIds(users: seq<User>, userId: string, id: string)
    ensures (exists i :: 0 <= i < |DeleteUser(users, userId)| && DeleteUser(users, userId)[i].id == id)
        <==> id != userId && exists i :: 0 <= i < |users| && users[i].id == id
  {
    var r := DeleteUser(users, userId);
    if id != userId && exists i :: 0 <= i < |users| && users[i].id == id {
      var i :| 0 <= i < |users| && users[i].id == id;
      assert users[i] in r;
    }
  }

  /** A deletion keeps the surviving users in their original order: `idx` says where each came from. */
  lemma DeleteUserKeepsOrder(users: seq<User>, userId: string) returns (idx: seq<nat>)
    ensures |idx| == |DeleteUser(users, userId)|
    ensures forall k :: 0 <= k < |idx| ==> idx[k] < |users| && DeleteUser(users, userId)[k] == users[idx[k]]
    ensures forall k, l :: 0 <= k < l < |idx| ==> idx[k] < idx[l]
  {
    idx := FilterKeepsOrder(users, NotId(userId));
  }

  /** A deletion keeps every other user as many times as it was listed, and none with the id. */
  lemma DeleteUserCounts(users: seq<User>, userId: string, u: User)
    ensures multiset(DeleteUser(users, userId))[u] == if u.id != userId then multiset(users)[u] else 0
  {
    FilterCount(users, NotId(userId), u);
  }

  /** `newUsers.map(u => u.id === edited.id ? edited : u)`. */
  function ReplaceById(users: seq<User>, edited: User): (r: seq<User>)
    ensures |r| == |users|
    ensures forall i :: 0 <= i < |r| ==> r[i] == if users[i].id == edited.id then edited else users[i]
  {
    if users == [] then []
    else [if users[0].id == edited.id then edited else users[0]] + ReplaceById(users[1..], edited)
  }

  /** `handleSaveUser`'s new list: an existing id is replaced in place, a new one appended. */
  function SaveUser(users: seq<User>, edited: User): (r: seq<User>)
    ensures (exists i :: 0 <= i < |users| && users[i].id == edited.id) ==> |r| == |users|
    ensures (exists i :: 0 <= i < |users| && users[i].id == edited.id) ==>
      forall i :: 0 <= i < |users| ==> r[i] == if users[i].id == edited.id then edited else users[i]
    ensures (forall i :: 0 <= i < |users| ==> users[i].id != edited.id) ==> r == users + [edited]
    ensures forall i :: 0 <= i < |r| && r[i].id != edited.id ==> i < |users| && r[i] == users[i]
    ensures forall i :: 0 <= i < |r| && r[i].id == edited.id ==> r[i] == edited
  {
    if Find(users, HasId(edited.id)).Some? then ReplaceById(users, edited) else users + [edited]
  }

  /** After a save, a lookup by the id finds exactly the saved user. */
  lemma {:induction false} SavedUserIsFound(users: seq<User>, edited: User)
    ensures Find(SaveUser(users, edited), HasId(edited.id)) == Some(edited)
  {
    var r := SaveUser(users, edited);
    var p := HasId(edited.id);
    if FindIndex(users, p).Some? {
      assert r[FindIndex(users, p).value] == edited;
    } else {
      assert r[|users|] == edited;
    }
  }

  /** Deleting a user just saved removes exactly what deleting it before would have. */
  lemma {:induction false} DeleteUndoesSave(users: seq<User>, edited: User)
    ensures DeleteUser(SaveUser(users, edited), edited.id) == DeleteUser(users, edited.id)
  {
    var p := NotId(edited.id);
    if Find(users, HasId(edited.id)).Some? {
      DeleteReplaced(users, edited);
    } else {
      FilterAppend(users, [edited], p);
      assert Filter([edited], p) == [] by {
        assert [edited][1..] == [];
      }
    }
  }

  lemma {:induction false} DeleteReplaced(users: seq<User>, edited: User)
    ensures Filter(ReplaceById(users, edited), NotId(edited.id)) == Filter(users, NotId(edited.id))
  {
    if users != [] {
      DeleteReplaced(users[1..], edited);
      var r := ReplaceById(users, edited);
      assert r[1..] == ReplaceById(users[1..], edited);
    }
  }

  // ---------------------------------------------------------------------------
  // the metric list of the edited user

  /** `handleAddMetric`'s metric, with the `Date.now()` ids given as parameters. */
  function NewMetric(id: string, inputKey: string): (r: Metric)
    ensures r.id == id && r.title == "Nova Meta" && r.targetValue == 10.0 && r.unit == "un"
    ensures r.kind == SumTarget && r.description == None
    ensures r.inputs == [InputConfig(inputKey, "Valor da meta", None)]
  {
    Metric(id, "Nova Meta", 10.0, SumTarget, "un", None, [InputConfig(inputKey, "Valor da meta", None)])
  }

  /** A metric added by the panel can always be computed: it has the one input SUM_TARGET reads. */
  lemma NewMetricNeverThrows(id: string, inputKey: string, entries: seq<WeeklyData>)
    ensures MetricStatus(NewMetric(id, inputKey), entries).Computed?
  {
  }

  /** One field of a metric as the editor changes it: `{...metric, [field]: value}`. */
  datatype MetricEdit = Title(title: string) | TargetValue(target: real) | Unit(unit: string) | Kind(kind: MetricType)

  function EditMetric(m: Metric, edit: MetricEdit): (r: Metric)
    ensures r.id == m.id && r.inputs == m.inputs && r.description == m.description
    ensures edit.Title? ==> r == m.(title := edit.title)
    ensures edit.TargetValue? ==> r == m.(targetValue := edit.target)
    ensures edit.Unit? ==> r == m.(unit := edit.unit)
    ensures edit.Kind? ==> r == m.(kind := edit.kind)
  {
    match edit
    case Title(t) => m.(title := t)
    case TargetValue(v) => m.(targetValue := v)
    case Unit(u) => m.(unit := u)
    case Kind(k) => m.(kind := k)
  }

  /** No edit detaches a metric from its entries: it selects exactly the tagged entries it selected before. */
  lemma EditKeepsEntries(m: Metric, edit: MetricEdit, entries: seq<WeeklyData>)
    ensures MetricEntries(EditMetric(m, edit), entries) == MetricEntries(m, entries)
  {
  }

  /** Editing the title, unit or target changes at most the status; the value stays. */
  lemma {:induction false} EditKeepsValue(m: Metric, edit: MetricEdit, entries: seq<WeeklyData>)
    requires !edit.Kind?
    ensures MetricStatus(EditMetric(m, edit), entries).Computed? == MetricStatus(m, entries).Computed?
    ensures MetricStatus(m, entries).Computed? ==>
      MetricStatus(EditMetric(m, edit), entries).value == MetricStatus(m, entries).value
  {
    var m' := EditMetric(m, edit);
    var es := MetricEntries(m, entries);
    assert MetricEntries(m', entries) == es;
    assert Throws(m', es) == Throws(m, es);
    if es != [] && !Throws(m, es) {
      assert Reduce(m', es) == Reduce(m, es);
    }
  }

  /** `handleUpdateMetric`: only the metric at `index` changes, and only in the edited field. */
  function UpdateMetricAt(metrics: seq<Metric>, index: nat, edit: MetricEdit): (r: seq<Metric>)
    requires index < |metrics|
    ensures |r| == |metrics|
    ensures r[index] == EditMetric(metrics[index], edit)
    ensures forall i :: 0 <= i < |r| && i != index ==> r[i] == metrics[i]
  {
    metrics[index := EditMetric(metrics[index], edit)]
  }

  /** `handleUpdateInputLabel`: only the label of `metrics[metricIndex].inputs[inputIndex]` changes. */
  function UpdateInputLabel(metrics: seq<Metric>, metricIndex: nat, inputIndex: nat, newLabel: string): (r: seq<Metric>)
    requires metricIndex < |metrics| && inputIndex < |metrics[metricIndex].inputs|
    ensures |r| == |metrics|
    ensures forall i :: 0 <= i < |r| && i != metricIndex ==> r[i] == metrics[i]
    ensures |r[metricIndex].inputs| == |metrics[metricIndex].inputs|
    ensures r[metricIndex] == metrics[metricIndex].(inputs := r[metricIndex].inputs)
    ensures r[metricIndex].inputs[inputIndex] == metrics[metricIndex].inputs[inputIndex].(labelText := newLabel)
    ensures forall j :: 0 <= j < |r[metricIndex].inputs| && j != inputIndex ==>
      r[metricIndex].inputs[j] == metrics[metricIndex].inputs[j]
  {
    var m := metrics[metricIndex];
    metrics[metricIndex := m.(inputs := m.inputs[inputIndex := m.inputs[inputIndex].(labelText := newLabel)])]
  }

  /** `metrics.filter((_, i) => i !== index)`: an index outside the list removes nothing. */
  function RemoveAt<T>(s: seq<T>, index: int): (r: seq<T>)
    ensures !(0 <= index < |s|) ==> r == s
    ensures 0 <= index < |s| ==> |r| == |s| - 1
    ensures 0 <= index < |s| ==> forall i :: 0 <= i < index ==> r[i] == s[i]
    ensures 0 <= index < |s| ==> forall i :: index <= i < |r| ==> r[i] == s[i + 1]
  {
    if 0 <= index < |s| then s[..index] + s[index + 1..] else s
  }

  /** Removing an element leaves the others as a multiset: exactly one occurrence goes. */
  lemma RemoveAtMultiset<T>(s: seq<T>, index: nat)
    requires index < |s|
    ensures multiset(RemoveAt(s, index)) + multiset{s[index]} == multiset(s)
  {
    assert s == s[..index] + [s[index]] + s[index + 1..];
  }

  // ---------------------------------------------------------------------------
  // the component

  datatype Tab = ListTab | EditTab

  /** A profile field of the edited user, as the form's inputs set it. */
  datatype UserEdit = Name(name: string) | RoleTitle(roleTitle: string) | Password(password: string)
                    | Role(role: UserRole) | Avatar(avatar: string)

  function EditUser(u: User, edit: UserEdit): (r: User)
    ensures r.id == u.id && r.metrics == u.metrics
    ensures edit.Name? ==> r == u.(name := edit.name)
    ensures edit.RoleTitle? ==> r == u.(roleTitle := edit.roleTitle)
    ensures edit.Password? ==> r == u.(password := Some(edit.password))
    ensures edit.Role? ==> r == u.(role := edit.role)
    ensures edit.Avatar? ==> r == u.(avatar := edit.avatar)
  {
    match edit
    case Name(n) => u.(name := n)
    case RoleTitle(t) => u.(roleTitle := t)
    case Password(p) => u.(password := Some(p))
    case Role(r) => u.(role := r)
    case Avatar(a) => u.(avatar := a)
  }

  class AdminPanel {
    /** The cockpit whose `onUpdateUsers` wrapper the panel calls; its session holds `users`. */
    const dashboard: Dashboard
    var editingUser: Option<User>
    var activeTab: Tab

    constructor(dashboard: Dashboard)
      ensures this.dashboard == dashboard && editingUser == None && activeTab == ListTab
    {
      this.dashboard := dashboard;
      editingUser := None;
      activeTab := ListTab;
    }

    /** The `users` prop. */
    function Users(): seq<User>
      reads dashboard, dashboard.app
    {
      dashboard.app.appState.users
    }

    /** "Novo Colaborador". */
    method HandleNewUser(id: string, avatar: string)
      modifies this
      ensures editingUser == Some(NewUserTemplate(id, avatar)) && activeTab == EditTab
    {
      editingUser := Some(NewUserTemplate(id, avatar));
      activeTab := EditTab;
    }

    method HandleEditUser(user: User)
      modifies this
      ensures editingUser == Some(user) && activeTab == EditTab
    {
      editingUser := Some(user);
      activeTab := EditTab;
    }

    /** The profile inputs and the avatar upload, the file read given as its data URL. */
    method HandleEditField(edit: UserEdit)
      requires editingUser.Some?
      modifies this
      ensures editingUser == Some(EditUser(old(editingUser).value, edit))
      ensures activeTab == old(activeTab)
    {
      editingUser := Some(EditUser(editingUser.value, edit));
    }

    method SetActiveTab(tab: Tab)
      modifies this
      ensures activeTab == tab && editingUser == old(editingUser)
    {
      activeTab := tab;
    }

    /** Deletes every user with the id, the confirmation taken as granted. */
    method HandleDeleteUser(userId: string)
      requires dashboard.app.user.Some?
      modifies dashboard.app
      ensures dashboard.app.appState == old(dashboard.app.appState).(users := DeleteUser(old(Users()), userId))
      ensures dashboard.app.user.None? <==>
        (userId == old(dashboard.app.user).value.id
         || forall i :: 0 <= i < |old(Users())| ==> old(Users())[i].id != old(dashboard.app.user).value.id)
      ensures dashboard.app.user.Some? ==>
        dashboard.app.user == RefreshedUser(old(dashboard.app.user), DeleteUser(old(Users()), userId))
      ensures dashboard.app.viewMode == old(dashboard.app.viewMode)
      ensures dashboard.app.isDarkMode == old(dashboard.app.isDarkMode)
    {
      var updated := DeleteUser(Users(), userId);
      DeleteUserIds(old(Users()), userId, old(dashboard.app.user).value.id);
      dashboard.OnAdminUpdateUsers(updated);
    }

    /** "Salvar Alterações": nothing without an edited user or without a name. */
    method HandleSaveUser()
      requires dashboard.app.user.Some?
      modifies this, dashboard.app
      ensures old(editingUser).None? || old(editingUser).value.name == "" ==>
        dashboard.app.appState == old(dashboard.app.appState) && dashboard.app.user == old(dashboard.app.user)
        && editingUser == old(editingUser) && activeTab == old(activeTab)
      ensures old(editingUser).Some? && old(editingUser).value.name != "" ==>
        dashboard.app.appState == old(dashboard.app.appState).(users := SaveUser(old(Users()), old(editingUser).value))
        && editingUser == None && activeTab == ListTab
      ensures old(editingUser).Some? && old(editingUser).value.name != "" ==>
        var saved := SaveUser(old(Users()), old(editingUser).value);
        (dashboard.app.user.None? <==> forall i :: 0 <= i < |saved| ==> saved[i].id != old(dashboard.app.user).value.id)
        && (dashboard.app.user.Some? ==> dashboard.app.user == RefreshedUser(old(dashboard.app.user), saved))
      ensures dashboard.app.viewMode == old(dashboard.app.viewMode)
      ensures dashboard.app.isDarkMode == old(dashboard.app.isDarkMode)
    {
      if editingUser.None? {
        return;
      }
      if editingUser.value.name == "" {
        return;
      }
      var newUsers := SaveUser(Users(), editingUser.value);
      dashboard.OnAdminUpdateUsers(newUsers);
      editingUser := None;
      activeTab := ListTab;
    }

    /** "Adicionar Meta", the `Date.now()` ids given as parameters. */
    method HandleAddMetric(metricId: string, inputKey: string)
      modifies this
      ensures old(editingUser).None? ==> editingUser == None
      ensures old(editingUser).Some? ==>
        editingUser == Some(old(editingUser).value.(metrics := old(editingUser).value.metrics + [NewMetric(metricId, inputKey)]))
      ensures activeTab == old(activeTab)
    {
      if editingUser.None? {
        return;
      }
      var u := editingUser.value;
      editingUser := Some(u.(metrics := u.metrics + [NewMetric(metricId, inputKey)]));
    }

    method HandleUpdateMetric(index: nat, edit: MetricEdit)
      requires editingUser.Some? ==> index < |editingUser.value.metrics|
      modifies this
      ensures old(editingUser).None? ==> editingUser == None
      ensures old(editingUser).Some? ==>
        editingUser == Some(old(editingUser).value.(metrics := UpdateMetricAt(old(editingUser).value.metrics, index, edit)))
      ensures activeTab == old(activeTab)
    {
      if editingUser.None? {
        return;
      }
      var u := editingUser.value;
      editingUser := Some(u.(metrics := UpdateMetricAt(u.metrics, index, edit)));
    }

    method HandleUpdateInputLabel(metricIndex: nat, inputIndex: nat, newLabel: string)
      requires editingUser.Some? ==>
        metricIndex < |editingUser.value.metrics| && inputIndex < |editingUser.value.metrics[metricIndex].inputs|
      modifies this
      ensures old(editingUser).None? ==> editingUser == None
      ensures old(editingUser).Some? ==>
        editingUser == Some(old(editingUser).value.(metrics :=
          UpdateInputLabel(old(editingUser).value.metrics, metricIndex, inputIndex, newLabel)))
      ensures activeTab == old(activeTab)
    {
      if editingUser.None? {
        return;
      }
      var u := editingUser.value;
      editingUser := Some(u.(metrics := UpdateInputLabel(u.metrics, metricIndex, inputIndex, newLabel)));
    }

    method HandleRemoveMetric(index: int)
      modifies this
      ensures old(editingUser).None? ==> editingUser == None
      ensures old(editingUser).Some? ==>
        editingUser == Some(old(editingUser).value.(metrics := RemoveAt(old(editingUser).value.metrics, index)))
      ensures activeTab == old(activeTab)
    {
      if editingUser.None? {
        return;
      }
      var u := editingUser.value;
      editingUser := Some(u.(metrics := RemoveAt(u.metrics, index)));
    }
  }
}
