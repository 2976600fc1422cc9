/**
 * components/Login.tsx: sign-in by a fragment of the name or job title plus the password,
 * and password recovery by the exact name.
 */
module LoginComponent {
  import opened Wrappers
  import opened Seqs
  import opened Types
  import opened AppComponent

  const InvalidCredentials: string := "Credenciais inválidas. Verifique seu nome e senha."
  const EmptyRecoveryName: string := "Por favor, digite um nome."
  const RecoveryUserNotFound: string := "Usuário não encontrado. Digite um nome válido."

  /**
   * The sign-in predicate: the lowercased name or job title contains the lowercased query.
   * `lower` stands for `toLowerCase`.
   */
  function LoginMatches(lower: string -> string, query: string): User -> bool
  {
    (u: User) => Contains(lower(u.name), lower(query)) || Contains(lower(u.roleTitle), lower(query))
  }

  /** The user a sign-in attempt checks: the first one matching the query. */
  function LoginLookup(users: seq<User>, lower: string -> string, query: string): (r: Option<User>)
    ensures r.Some? ==> r.value in users && LoginMatches(lower, query)(r.value)
    ensures r.None? <==> forall i :: 0 <= i < |users| ==> !LoginMatches(lower, query)(users[i])
  {
    Find(users, LoginMatches(lower, query))
  }

  /** `foundUser && foundUser.password === password`. */
  predicate LoginSucceeds(users: seq<User>, lower: string -> string, query: string, typed: string)
  {
    var found := LoginLookup(users, lower, query);
    found.Some? && found.value.password == Some(typed)
  }

  /**
   * Only the first matching user is checked: the attempt succeeds exactly when that user's
   * password is the typed one, whatever the later matches hold.
   */
  lemma FirstMatchDecides(users: seq<User>, lower: string -> string, query: string, typed: string, i: nat)
    requires i < |users| && LoginMatches(lower, query)(users[i])
    requires forall j :: 0 <= j < i ==> !LoginMatches(lower, query)(users[j])
    ensures LoginSucceeds(users, lower, query, typed) <==> users[i].password == Some(typed)
  {
    FindIsFirst(users, LoginMatches(lower, query), i);
  }

  /** Every string contains the empty one, so an empty query selects the first user. */
  lemma EmptyQuerySelectsFirst(users: seq<User>, lower: string -> string)
    requires users != [] && lower("") == ""
    ensures LoginLookup(users, lower, "") == Some(users[0])
  {
    ContainsEmpty(lower(users[0].name));
    FindIsFirst(users, LoginMatches(lower, ""), 0);
  }

  /** A user who has just reset a password signs in with it, under any query that selected them. */
  lemma {:induction false} ResetThenLogin(users: seq<User>, lower: string -> string, query: string, newPass: string)
    requires LoginLookup(users, lower, query).Some?
    ensures LoginSucceeds(ResetPassword(users, LoginLookup(users, lower, query).value.id, newPass), lower, query, newPass)
  {
    var p := LoginMatches(lower, query);
    var k := FindIndex(users, p).value;
    var id := users[k].id;
    var r := ResetPassword(users, id, newPass);
    forall j | 0 <= j < k ensures !p(r[j]) {
      assert r[j].name == users[j].name && r[j].roleTitle == users[j].roleTitle;
    }
    assert r[k] == users[k].(password := Some(newPass));
    FindIsFirst(r, p, k);
  }

  /** The recovery predicate: the lowercased name equals the lowercased search. */
  function RecoveryMatches(lower: string -> string, name: string): User -> bool
  {
    (u: User) => lower(u.name) == lower(name)
  }

  function RecoveryLookup(users: seq<User>, lower: string -> string, name: string): (r: Option<User>)
    ensures r.Some? ==> r.value in users && lower(r.value.name) == lower(name)
    ensures r.None? <==> forall i :: 0 <= i < |users| ==> lower(users[i].name) != lower(name)
  {
    Find(users, RecoveryMatches(lower, name))
  }

  /** Recovery is stricter than sign-in: a user found by exact name also matches as a sign-in query. */
  lemma RecoveryMatchIsLoginMatch(lower: string -> string, name: string, u: User)
    requires RecoveryMatches(lower, name)(u)
    ensures LoginMatches(lower, name)(u)
  {
    ContainsSelf(lower(u.name));
  }

  class Login {
    /** The session: its `users`, `handleLogin` and `handleResetPassword`. */
    const app: App
    /** `toLowerCase` and `trim`. */
    const lower: string -> string
    const trim: string -> string
    var username: string
    var password: string
    var error: string
    var showRecovery: bool
    var recoveryUser: Option<User>
    var newPassword: string
    var recoverySearchName: string
    var recoveryError: string

    constructor(app: App, lower: string -> string, trim: string -> string)
      ensures this.app == app && this.lower == lower && this.trim == trim
      ensures username == "" && password == "" && error == "" && !showRecovery
      ensures recoveryUser == None && newPassword == "" && recoverySearchName == "" && recoveryError == ""
    {
      this.app := app;
      this.lower := lower;
      this.trim := trim;
      username := "";
      password := "";
      error := "";
      showRecovery := false;
      recoveryUser := None;
      newPassword := "";
      recoverySearchName := "";
      recoveryError := "";
    }

    /** The `users` prop. */
    function Users(): seq<User>
      reads app
    {
      app.appState.users
    }

    method SetUsername(text: string)
      modifies this
      ensures username == text && password == old(password) && error == old(error)
      ensures showRecovery == old(showRecovery) && recoveryUser == old(recoveryUser)
      ensures newPassword == old(newPassword) && recoverySearchName == old(recoverySearchName) && recoveryError == old(recoveryError)
    {
      username := text;
    }

    method SetPassword(text: string)
      modifies this
      ensures password == text && username == old(username) && error == old(error)
      ensures showRecovery == old(showRecovery) && recoveryUser == old(recoveryUser)
      ensures newPassword == old(newPassword) && recoverySearchName == old(recoverySearchName) && recoveryError == old(recoveryError)
    {
      password := text;
    }

    /** "Entrar": the error is cleared first; a failed attempt sets it and logs nobody in. */
    method HandleLoginSubmit()
      modifies this, app
      ensures LoginSucceeds(old(Users()), lower, username, password) ==>
        error == "" && app.user == LoginLookup(old(Users()), lower, username)
        && app.viewMode == ViewFor(app.user.value.role)
      ensures !LoginSucceeds(old(Users()), lower, username, password) ==>
        error == InvalidCredentials && app.user == old(app.user) && app.viewMode == old(app.viewMode)
      ensures app.appState == old(app.appState) && app.isDarkMode == old(app.isDarkMode)
      ensures username == old(username) && password == old(password)
      ensures showRecovery == old(showRecovery) && recoveryUser == old(recoveryUser)
      ensures newPassword == old(newPassword) && recoverySearchName == old(recoverySearchName) && recoveryError == old(recoveryError)
    {
      error := "";
      var foundUser := Find(app.appState.users, LoginMatches(lower, username));
      if foundUser.Some? && foundUser.value.password == Some(password) {
        app.HandleLogin(foundUser.value);
      } else {
        error := InvalidCredentials;
      }
    }

    /** "Esqueci minha senha": looks up the typed name exactly, or carries it into the search box. */
    method HandleOpenRecovery()
      modifies this
      ensures var found := RecoveryLookup(Users(), lower, username);
        (found.Some? ==> recoveryUser == found && recoverySearchName == old(recoverySearchName))
        && (found.None? ==> recoveryUser == None && recoverySearchName == username)
      ensures recoveryError == "" && newPassword == "" && showRecovery
      ensures username == old(username) && password == old(password) && error == old(error)
    {
      var found := Find(app.appState.users, RecoveryMatches(lower, username));
      recoveryError := "";
      if found.Some? {
        recoveryUser := found;
      } else {
        recoverySearchName := username;
        recoveryUser := None;
      }
      newPassword := "";
      showRecovery := true;
    }

    /** Typing in the recovery search box also clears its error. */
    method SetRecoverySearchName(text: string)
      modifies this
      ensures recoverySearchName == text && recoveryError == ""
      ensures recoveryUser == old(recoveryUser) && newPassword == old(newPassword) && showRecovery == old(showRecovery)
      ensures username == old(username) && password == old(password) && error == old(error)
    {
      recoverySearchName := text;
      recoveryError := "";
    }

    /** "Buscar Usuário": a blank name is rejected without a lookup. */
    method HandleSearchUser()
      modifies this
      ensures trim(recoverySearchName) == "" ==> recoveryError == EmptyRecoveryName && recoveryUser == old(recoveryUser)
      ensures trim(recoverySearchName) != "" ==>
        var found := RecoveryLookup(Users(), lower, recoverySearchName);
        (found.Some? ==> recoveryUser == found && recoveryError == "")
        && (found.None? ==> recoveryUser == old(recoveryUser) && recoveryError == RecoveryUserNotFound)
      ensures recoverySearchName == old(recoverySearchName) && newPassword == old(newPassword)
      ensures showRecovery == old(showRecovery)
      ensures username == old(username) && password == old(password) && error == old(error)
    {
      recoveryError := "";
      if trim(recoverySearchName) == "" {
        recoveryError := EmptyRecoveryName;
        return;
      }
      var found := Find(app.appState.users, RecoveryMatches(lower, recoverySearchName));
      if found.Some? {
        recoveryUser := found;
      } else {
        recoveryError := RecoveryUserNotFound;
      }
    }

    method SetNewPassword(text: string)
      modifies this
      ensures newPassword == text
      ensures recoveryUser == old(recoveryUser) && recoverySearchName == old(recoverySearchName)
      ensures showRecovery == old(showRecovery) && recoveryError == old(recoveryError)
      ensures username == old(username) && password == old(password) && error == old(error)
    {
      newPassword := text;
    }

    /** "Voltar": back to the search. */
    method ClearRecoveryUser()
      modifies this
      ensures recoveryUser == None
      ensures newPassword == old(newPassword) && recoverySearchName == old(recoverySearchName)
      ensures showRecovery == old(showRecovery) && recoveryError == old(recoveryError)
      ensures username == old(username) && password == old(password) && error == old(error)
    {
      recoveryUser := None;
    }

    method CloseRecovery()
      modifies this
      ensures !showRecovery
      ensures recoveryUser == old(recoveryUser) && newPassword == old(newPassword)
      ensures recoverySearchName == old(recoverySearchName) && recoveryError == old(recoveryError)
      ensures username == old(username) && password == old(password) && error == old(error)
    {
      showRecovery := false;
    }

    /**
     * "Salvar Nova Senha": only with a user selected and a non-empty password; then the
     * recovery closes and its state is cleared (the success alert is left out).
     */
    method HandleRecoverySubmit()
      modifies this, app
      ensures old(recoveryUser).None? || old(newPassword) == "" ==>
        app.appState == old(app.appState) && recoveryUser == old(recoveryUser) && newPassword == old(newPassword)
        && showRecovery == old(showRecovery) && recoverySearchName == old(recoverySearchName)
        && recoveryError == old(recoveryError)
      ensures old(recoveryUser).Some? && old(newPassword) != "" ==>
        app.appState == old(app.appState).(users := ResetPassword(old(app.appState).users, old(recoveryUser).value.id, old(newPassword)))
        && !showRecovery && recoveryUser == None && newPassword == "" && recoverySearchName == "" && recoveryError == ""
      ensures app.user == old(app.user) && app.viewMode == old(app.viewMode) && app.isDarkMode == old(app.isDarkMode)
      ensures username == old(username) && password == old(password) && error == old(error)
    {
      if recoveryUser.Some? && newPassword != "" {
        app.HandleResetPassword(recoveryUser.value.id, newPassword);
        showRecovery := false;
        recoveryUser := None;
        newPassword := "";
        recoverySearchName := "";
        recoveryError := "";
      }
    }
  }
}
