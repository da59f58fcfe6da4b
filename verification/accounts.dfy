/** The user table of `src/App.jsx`: loading the saved accounts (or the
    default admin), the session, login and logout, signup, the forgotten and
    changed password, and the admin's create and delete actions. */
module Accounts {
  import opened Common
  import opened Records
  import opened Storage

  // ---------------------------------------------------------------------------
  // Password encoding
  // ---------------------------------------------------------------------------

  /** A reversible stand-in for `btoa`: every property below uses only that
      distinct passwords encode differently. */
  function Encode(s: string): string
  {
    "=" + s
  }

  function Decode(t: string): string
  {
    if |t| > 0 then t[1..] else t
  }

  lemma DecodeEncode(s: string)
    ensures Decode(Encode(s)) == s
  {
  }

  lemma EncodeInjective(a: string, b: string)
    ensures Encode(a) == Encode(b) <==> a == b
  {
    if Encode(a) == Encode(b) {
      DecodeEncode(a);
      DecodeEncode(b);
    }
  }

  // ---------------------------------------------------------------------------
  // Accounts and the table as records
  // ---------------------------------------------------------------------------

  /** A user object of the `users` array. The handlers rewrite `password` in
      place; name and admin flag never change. Identity is the reference, as
      for `users.indexOf`. */
  class Account {
    const username: string
    var password: string
    const isAdmin: bool

    constructor (r: UserRecord)
      ensures Record() == r
    {
      username := r.username;
      password := r.password;
      isAdmin := r.isAdmin;
    }

    /** `JSON.stringify(user)`, as a value. */
    function Record(): UserRecord
      reads this
    {
      UserRecord(username, password, isAdmin)
    }
  }

  /** The table as it is written to storage. */
  function Snapshot(us: seq<Account>): (rs: seq<UserRecord>)
    reads set u | u in us
    ensures |rs| == |us|
    ensures forall i :: 0 <= i < |us| ==> rs[i] == us[i].Record()
  {
    seq(|us|, i reads set u | u in us requires 0 <= i < |us| => us[i].Record())
  }

  /** The one account of a fresh installation. */
  const DefaultAdmin: UserRecord := UserRecord("admin", Encode("admin123"), true)

  /** The `users` state's initial value: the saved list, or the default admin. */
  function InitialUsers(items: map<string, Stored>): seq<UserRecord>
  {
    if UsersKey in items && items[UsersKey].UserList? then items[UsersKey].records else [DefaultAdmin]
  }

  /** `users.findIndex(u => u.username === name)`. */
  function NameIndex(rs: seq<UserRecord>, name: string): int
  {
    FindIndex(rs, (r: UserRecord) => r.username == name)
  }

  /** The position `users.find` of `handleLogin` stops at, or -1. */
  function LoginIndex(rs: seq<UserRecord>, name: string, password: string): int
  {
    FindIndex(rs, (r: UserRecord) => r.username == name && r.password == Encode(password))
  }

  /** Some account has this name and stores the encoding of this password. */
  predicate Authenticates(rs: seq<UserRecord>, name: string, password: string)
  {
    exists i :: 0 <= i < |rs| && rs[i].username == name && rs[i].password == Encode(password)
  }

  /** No two accounts share a username. */
  predicate UniqueNames(rs: seq<UserRecord>)
  {
    forall i, j :: 0 <= i < j < |rs| ==> rs[i].username != rs[j].username
  }

  /** `users.filter(u => u.username !== name)`, on records. */
  function RecordsWithout(rs: seq<UserRecord>, name: string): seq<UserRecord>
  {
    Filter(rs, (r: UserRecord) => r.username != name)
  }

  /** The same filter on the account objects themselves. */
  function AccountsWithout(us: seq<Account>, name: string): seq<Account>
  {
    Filter(us, (u: Account) => u.username != name)
  }

  /** `users.findIndex(u => u.username === "admin" && u.isAdmin)`. */
  function AdminIndex(us: seq<Account>): int
  {
    FindIndex(us, (u: Account) => u.username == "admin" && u.isAdmin)
  }

  /** `users.indexOf(a)`: by reference. */
  function RefIndex(us: seq<Account>, a: Account): int
  {
    FindIndex(us, (u: Account) => u == a)
  }

  /** `isDefaultAdmin`: the current user is called "admin" and sits where the
      first listed admin called "admin" sits (both -1 when neither is listed). */
  predicate IsDefaultAdmin(us: seq<Account>, current: Account?)
    ensures IsDefaultAdmin(us, current) ==>
      && current != null && current.username == "admin"
      && (0 <= AdminIndex(us) ==> us[AdminIndex(us)] == current)
      && (AdminIndex(us) == -1 ==> current !in us)
  {
    current != null && current.username == "admin" && AdminIndex(us) == RefIndex(us, current)
  }

  /** For a current user that is one of the listed objects, the rule singles
      out exactly the first admin called "admin". */
  lemma DefaultAdminListed(us: seq<Account>, current: Account)
    requires Distinct(us) && current in us
    ensures IsDefaultAdmin(us, current) <==> 0 <= AdminIndex(us) && us[AdminIndex(us)] == current
  {
    var k := RefIndex(us, current);
    assert current == us[k];
    if 0 <= AdminIndex(us) && us[AdminIndex(us)] == current {
      assert AdminIndex(us) == k;
    }
  }

  /** For a current user that is not one of the listed objects (a session
      restored from storage), the rule holds exactly when it is called "admin"
      and no listed account is an admin called "admin". */
  lemma DefaultAdminDetached(us: seq<Account>, current: Account)
    requires current !in us
    ensures IsDefaultAdmin(us, current) <==>
      current.username == "admin" && forall i :: 0 <= i < |us| ==> !(us[i].username == "admin" && us[i].isAdmin)
  {
    assert RefIndex(us, current) == -1;
  }

  /** Login succeeds exactly when some account has the name and stores the
      encoding of the password; it then picks the first such account. */
  lemma LoginIndexIff(rs: seq<UserRecord>, name: string, password: string)
    ensures LoginIndex(rs, name, password) >= 0 <==> Authenticates(rs, name, password)
    ensures LoginIndex(rs, name, password) >= 0 ==>
      rs[LoginIndex(rs, name, password)].username == name
  {
    var k := LoginIndex(rs, name, password);
    if Authenticates(rs, name, password) {
      var i :| 0 <= i < |rs| && rs[i].username == name && rs[i].password == Encode(password);
    }
  }

  /** With nothing saved, the table is the default admin alone. */
  lemma FreshInstall(items: map<string, Stored>)
    requires UsersKey !in items
    ensures InitialUsers(items) == [UserRecord("admin", Encode("admin123"), true)]
  {
  }

  /** After a password is rewritten on the first account of a name, that
      name logs in with the new password. */
  lemma RewriteAuthenticates(rs: seq<UserRecord>, name: string, password: string)
    requires NameIndex(rs, name) >= 0
    ensures var k := NameIndex(rs, name);
      Authenticates(rs[k := rs[k].(password := Encode(password))], name, password)
  {
    var k := NameIndex(rs, name);
    var rs' := rs[k := rs[k].(password := Encode(password))];
    assert rs'[k].username == name && rs'[k].password == Encode(password);
  }

  /** With unique names, a rewritten password locks the old one out: the
      name no longer logs in with any password but the new one. */
  lemma RewriteLocksOut(rs: seq<UserRecord>, name: string, password: string, other: string)
    requires UniqueNames(rs) && NameIndex(rs, name) >= 0 && other != password
    ensures var k := NameIndex(rs, name);
      !Authenticates(rs[k := rs[k].(password := Encode(password))], name, other)
  {
    var k := NameIndex(rs, name);
    var rs' := rs[k := rs[k].(password := Encode(password))];
    if Authenticates(rs', name, other) {
      var i :| 0 <= i < |rs'| && rs'[i].username == name && rs'[i].password == Encode(other);
      if i == k {
        EncodeInjective(password, other);
      } else {
        assert false;
      }
    }
  }

  /** A name no account has may be appended without breaking uniqueness. */
  lemma AppendKeepsUnique(rs: seq<UserRecord>, r: UserRecord)
    requires UniqueNames(rs) && NameIndex(rs, r.username) == -1
    ensures UniqueNames(rs + [r])
  {
    var rs' := rs + [r];
    forall i, j | 0 <= i < j < |rs'|
      ensures rs'[i].username != rs'[j].username
    {
      if j == |rs| {
        assert rs'[i] == rs[i];
      }
    }
  }

  lemma UniqueSnoc(rs: seq<UserRecord>, r: UserRecord)
    requires UniqueNames(rs) && forall x :: x in rs ==> x.username != r.username
    ensures UniqueNames(rs + [r])
  {
    var rs' := rs + [r];
    forall i, j | 0 <= i < j < |rs'|
      ensures rs'[i].username != rs'[j].username
    {
      if j == |rs| {
        assert rs'[i] in rs;
      }
    }
  }

  /** Dropping every account of one name keeps usernames unique. */
  lemma {:induction false} WithoutKeepsUnique(rs: seq<UserRecord>, name: string)
    requires UniqueNames(rs)
    ensures UniqueNames(RecordsWithout(rs, name))
  {
    if rs != [] {
      var n := |rs| - 1;
      var prefix, last := rs[..n], rs[n];
      assert rs == prefix + [last];
      assert UniqueNames(prefix);
      WithoutKeepsUnique(prefix, name);
      if last.username != name {
        var init := RecordsWithout(prefix, name);
        assert RecordsWithout(rs, name) == init + [last];
        FilterMembers(prefix, (r: UserRecord) => r.username != name);
        assert forall x :: x in init ==> x in prefix;
        UniqueSnoc(init, last);
      }
    }
  }

  /** Deleting on the objects and then writing the table gives the filtered
      records: the same accounts, in the same order. */
  lemma {:induction false} SnapshotWithout(us: seq<Account>, name: string)
    ensures Snapshot(AccountsWithout(us, name)) == RecordsWithout(Snapshot(us), name)
  {
    if us != [] {
      var n := |us| - 1;
      SnapshotWithout(us[..n], name);
      assert Snapshot(us)[..n] == Snapshot(us[..n]);
      if us[n].username != name {
        assert AccountsWithout(us, name) == AccountsWithout(us[..n], name) + [us[n]];
        assert Snapshot(AccountsWithout(us, name))
            == Snapshot(AccountsWithout(us[..n], name)) + [us[n].Record()];
      }
    }
  }

  /** Rewriting one password keeps every username. */
  lemma PasswordKeepsUnique(rs: seq<UserRecord>, i: nat, password: string)
    requires i < |rs| && UniqueNames(rs)
    ensures UniqueNames(rs[i := rs[i].(password := password)])
  {
  }

  // ---------------------------------------------------------------------------
  // The application state
  // ---------------------------------------------------------------------------

  datatype LoginOutcome = LoggedIn | LoginRejected
  datatype SignupOutcome = SignupTaken | SignedUp
  datatype ForgetOutcome = PasswordReset | ForgetUnknown
  datatype ChangeOutcome = PasswordChanged | WrongPassword | ChangeUnknown

  /** The `action` argument of `handleAdminAction`. */
  datatype AdminRequest = CreateUser | DeleteUser | OtherAction

  /** The `data` argument of `handleAdminAction`, as the admin form fills it. */
  datatype AdminData = AdminData(username: string, password: string, isAdmin: bool)

  datatype AdminOutcome =
    | NotAdmin          // "Only admin can do this!"
    | NotMainAdmin      // "Only main admin can create or delete users!"
    | CreateTaken       // "Username already exists!"
    | Created
    | AdminProtected    // delete of "admin": returns silently
    | Deleted
    | InvalidAction

  class App {
    const store: Store
    var users: seq<Account>
    var isLoggedIn: bool
    var currentUser: Account?
    var showSignup: bool
    var showForgetPassword: bool
    var showChangePassword: bool

    /** The table as records. */
    function Table(): seq<UserRecord>
      reads this`users, set u | u in users
    {
      Snapshot(users)
    }

    /** The saved `users` key mirrors the table (the effect on `[users]`). */
    ghost predicate Synced()
      reads this`users, store, set u | u in users
    {
      UsersKey in store.items && store.items[UsersKey] == UserList(Snapshot(users))
    }

    /** Every entry of the table is its own object. */
    ghost predicate Valid()
      reads this`users, store, set u | u in users
    {
      Distinct(users) && Synced()
    }

    /** Mounting: the saved accounts (or the default admin) become the table,
        the table is written back, and a session saved as logged in is
        restored from a parsed copy of the saved user. */
    constructor (store: Store)
      modifies store
      ensures this.store == store
      ensures Table() == InitialUsers(old(store.items))
      ensures forall i :: 0 <= i < |users| ==> fresh(users[i])
      ensures Valid()
      ensures isLoggedIn == (LoggedInKey in old(store.items) && old(store.items)[LoggedInKey] == Text("true"))
      ensures currentUser != null <==>
        isLoggedIn && CurrentUserKey in old(store.items) && old(store.items)[CurrentUserKey].UserObject?
      ensures currentUser != null ==>
        fresh(currentUser) && currentUser.Record() == old(store.items)[CurrentUserKey].record
        && currentUser !in users
      ensures !showSignup && !showForgetPassword && !showChangePassword
      ensures store.items == old(store.items)[UsersKey := UserList(Table())]
    {
      var saved := store.items;
      var rs := InitialUsers(saved);
      var loaded: seq<Account> := [];
      for i := 0 to |rs|
        invariant |loaded| == i
        invariant forall j :: 0 <= j < i ==> fresh(loaded[j]) && loaded[j].Record() == rs[j]
        invariant Distinct(loaded)
        invariant store.items == saved
      {
        var a := new Account(rs[i]);
        loaded := loaded + [a];
      }
      var restored: Account? := null;
      var loggedIn := LoggedInKey in saved && saved[LoggedInKey] == Text("true");
      if loggedIn && CurrentUserKey in saved && saved[CurrentUserKey].UserObject? {
        restored := new Account(saved[CurrentUserKey].record);
      }
      this.store := store;
      users := loaded;
      isLoggedIn := loggedIn;
      currentUser := restored;
      showSignup := false;
      showForgetPassword := false;
      showChangePassword := false;
      new;
      store.items := store.items[UsersKey := UserList(Snapshot(users))];
    }

    /** `handleLogin`: the first account with the name and the encoded
        password becomes the session, which is saved; otherwise nothing
        changes. */
    method Login(username: string, password: string) returns (outcome: LoginOutcome)
      requires Valid()
      modifies this`isLoggedIn, this`currentUser, this`showChangePassword, store
      ensures Valid()
      ensures outcome == LoggedIn <==> Authenticates(Table(), username, password)
      ensures outcome == LoginRejected ==>
        isLoggedIn == old(isLoggedIn) && currentUser == old(currentUser)
        && showChangePassword == old(showChangePassword) && store.items == old(store.items)
      ensures outcome == LoggedIn ==>
        var k := LoginIndex(Table(), username, password);
        && 0 <= k < |users| && currentUser == users[k] && isLoggedIn && !showChangePassword
        && store.items == old(store.items)[LoggedInKey := Text("true")][CurrentUserKey := UserObject(users[k].Record())]
    {
      LoginIndexIff(Snapshot(users), username, password);
      var k := LoginIndex(Snapshot(users), username, password);
      if k == -1 {
        return LoginRejected;
      }
      isLoggedIn := true;
      currentUser := users[k];
      store.items := store.items[LoggedInKey := Text("true")][CurrentUserKey := UserObject(users[k].Record())];
      showChangePassword := false;
      outcome := LoggedIn;
    }

    /** `handleLogout`: the session is dropped, in memory and in storage. */
    method Logout()
      requires Valid()
      modifies this`isLoggedIn, this`currentUser, store
      ensures Valid()
      ensures !isLoggedIn && currentUser == null
      ensures store.items == old(store.items) - {LoggedInKey, CurrentUserKey}
    {
      isLoggedIn := false;
      currentUser := null;
      store.items := store.items - {LoggedInKey, CurrentUserKey};
    }

    /** `handleSignup`: a taken name changes nothing; otherwise one non-admin
        account is appended and the form closes. */
    method Signup(newUsername: string, newPassword: string) returns (outcome: SignupOutcome)
      requires Valid()
      modifies this`users, this`showSignup, store
      ensures Valid()
      ensures NameIndex(old(Table()), newUsername) >= 0 ==>
        outcome == SignupTaken && users == old(users) && showSignup == old(showSignup)
        && store.items == old(store.items)
      ensures NameIndex(old(Table()), newUsername) == -1 ==>
        && outcome == SignedUp && !showSignup
        && |users| == |old(users)| + 1 && users[..|old(users)|] == old(users) && fresh(users[|old(users)|])
        && Table() == old(Table()) + [UserRecord(newUsername, Encode(newPassword), false)]
        && store.items == old(store.items)[UsersKey := UserList(Table())]
      ensures old(UniqueNames(Table())) ==> UniqueNames(Table())
    {
      if NameIndex(Snapshot(users), newUsername) >= 0 {
        return SignupTaken;
      }
      Append(UserRecord(newUsername, Encode(newPassword), false));
      showSignup := false;
      outcome := SignedUp;
    }

    /** `handleForgetPassword`: the first account of that name gets the
        password "default123" and the change-password form opens; an unknown
        name changes nothing. */
    method ForgetPassword(username: string) returns (outcome: ForgetOutcome)
      requires Valid()
      modifies this`showForgetPassword, this`showChangePassword, store, set u | u in users
      ensures Valid() && users == old(users)
      ensures var k := NameIndex(old(Table()), username);
        && (k == -1 ==>
              outcome == ForgetUnknown && Table() == old(Table()) && store.items == old(store.items)
              && showForgetPassword == old(showForgetPassword) && showChangePassword == old(showChangePassword))
        && (k >= 0 ==>
              && outcome == PasswordReset
              && Table() == old(Table())[k := old(Table())[k].(password := Encode("default123"))]
              && store.items == old(store.items)[UsersKey := UserList(Table())]
              && !showForgetPassword && showChangePassword)
      ensures old(UniqueNames(Table())) ==> UniqueNames(Table())
    {
      var k := NameIndex(Snapshot(users), username);
      if k == -1 {
        return ForgetUnknown;
      }
      SetPassword(k, Encode("default123"));
      showForgetPassword := false;
      showChangePassword := true;
      outcome := PasswordReset;
    }

    /** `handleChangePassword`: the first account of that name gets the new
        password when its stored one is the encoding of `currentPassword`. */
    method ChangePassword(username: string, currentPassword: string, newPassword: string)
      returns (outcome: ChangeOutcome)
      requires Valid()
      modifies store, set u | u in users
      ensures Valid() && users == old(users)
      ensures var k := NameIndex(old(Table()), username);
        && (k == -1 ==> outcome == ChangeUnknown)
        && (k >= 0 && old(Table())[k].password != Encode(currentPassword) ==> outcome == WrongPassword)
        && (outcome != PasswordChanged ==> Table() == old(Table()) && store.items == old(store.items))
        && (k >= 0 && old(Table())[k].password == Encode(currentPassword) ==>
              && outcome == PasswordChanged
              && Table() == old(Table())[k := old(Table())[k].(password := Encode(newPassword))]
              && store.items == old(store.items)[UsersKey := UserList(Table())])
      ensures old(UniqueNames(Table())) ==> UniqueNames(Table())
    {
      var k := NameIndex(Snapshot(users), username);
      if k == -1 {
        return ChangeUnknown;
      }
      if users[k].password != Encode(currentPassword) {
        return WrongPassword;
      }
      SetPassword(k, Encode(newPassword));
      outcome := PasswordChanged;
    }

    /** `users[k].password = password` followed by the save of the table:
        only that entry changes. */
    method SetPassword(k: nat, password: string)
      requires Valid() && k < |users|
      modifies store, users[k]
      ensures Valid() && users == old(users)
      ensures Table() == old(Table())[k := old(Table())[k].(password := password)]
      ensures store.items == old(store.items)[UsersKey := UserList(Table())]
      ensures old(UniqueNames(Table())) ==> UniqueNames(Table())
    {
      ghost var before := Snapshot(users);
      users[k].password := password;
      forall j | 0 <= j < |users| && j != k
        ensures users[j].Record() == before[j]
      {
        assert users[j] != users[k];
      }
      assert Snapshot(users) == before[k := before[k].(password := password)];
      if UniqueNames(before) {
        PasswordKeepsUnique(before, k, password);
      }
      store.items := store.items[UsersKey := UserList(Snapshot(users))];
    }

    /** `handleAdminAction`. Only an admin may act; creating and deleting
        need the default admin; a taken name is not created again; "admin" is
        never deleted; deleting drops every account of that name and that
        user's saved ledger, and nothing else. */
    method AdminAction(action: AdminRequest, data: AdminData) returns (outcome: AdminOutcome)
      requires Valid()
      modifies this`users, store
      ensures Valid()
      ensures currentUser == null || !currentUser.isAdmin ==> outcome == NotAdmin
      ensures (currentUser != null && currentUser.isAdmin && !old(IsDefaultAdmin(users, currentUser))
               && action != OtherAction) ==> outcome == NotMainAdmin
      ensures outcome in {NotAdmin, NotMainAdmin, CreateTaken, AdminProtected, InvalidAction} ==>
        users == old(users) && store.items == old(store.items)
      ensures outcome in {CreateTaken, Created, AdminProtected, Deleted} ==>
        currentUser != null && currentUser.isAdmin && old(IsDefaultAdmin(users, currentUser))
      ensures action == OtherAction && currentUser != null && currentUser.isAdmin ==> outcome == InvalidAction
      ensures outcome == CreateTaken <==>
        outcome in {CreateTaken, Created} && NameIndex(old(Table()), data.username) >= 0
      ensures outcome == Created ==>
        && action == CreateUser
        && |users| == |old(users)| + 1 && users[..|old(users)|] == old(users) && fresh(users[|old(users)|])
        && Table() == old(Table()) + [UserRecord(data.username, Encode(data.password), data.isAdmin)]
        && store.items == old(store.items)[UsersKey := UserList(Table())]
      ensures outcome in {AdminProtected, Deleted} ==> action == DeleteUser
      ensures outcome == AdminProtected <==> outcome in {AdminProtected, Deleted} && data.username == "admin"
      ensures outcome == NotAdmin ==> currentUser == null || !currentUser.isAdmin
      ensures outcome == NotMainAdmin ==>
        currentUser != null && currentUser.isAdmin && !old(IsDefaultAdmin(users, currentUser)) && action != OtherAction
      ensures outcome == InvalidAction ==> action == OtherAction
      ensures outcome in {CreateTaken, Created} ==> action == CreateUser
      ensures (currentUser != null && currentUser.isAdmin && old(IsDefaultAdmin(users, currentUser))
               && action == DeleteUser && data.username == "admin") ==> outcome == AdminProtected
      ensures (currentUser != null && currentUser.isAdmin && old(IsDefaultAdmin(users, currentUser))
               && action == CreateUser && NameIndex(old(Table()), data.username) == -1) ==> outcome == Created
      ensures (currentUser != null && currentUser.isAdmin && old(IsDefaultAdmin(users, currentUser))
               && action == DeleteUser && data.username != "admin") ==> outcome == Deleted
      ensures outcome == Deleted ==>
        && users == AccountsWithout(old(users), data.username)
        && Table() == RecordsWithout(old(Table()), data.username)
        && store.items == (old(store.items) - {ExpensesKey(data.username)})[UsersKey := UserList(Table())]
      ensures old(UniqueNames(Table())) ==> UniqueNames(Table())
    {
      if currentUser == null || !currentUser.isAdmin {
        return NotAdmin;
      }
      var isDefaultAdmin := IsDefaultAdmin(users, currentUser);
      if !isDefaultAdmin && (action == CreateUser || action == DeleteUser) {
        return NotMainAdmin;
      }
      match action {
        case CreateUser =>
          if NameIndex(Snapshot(users), data.username) >= 0 {
            return CreateTaken;
          }
          Append(UserRecord(data.username, Encode(data.password), data.isAdmin));
          outcome := Created;
        case DeleteUser =>
          if data.username == "admin" {
            return AdminProtected;
          }
          ghost var before := Snapshot(users);
          Remove(data.username);
          if UniqueNames(before) {
            WithoutKeepsUnique(before, data.username);
          }
          outcome := Deleted;
        case OtherAction =>
          outcome := InvalidAction;
      }
    }

    /** `setUsers([...users, newUser])` followed by the save of the table,
        for a name no account has. */
    method Append(r: UserRecord)
      requires Valid() && NameIndex(Table(), r.username) == -1
      modifies this`users, store
      ensures Valid()
      ensures |users| == |old(users)| + 1 && users[..|old(users)|] == old(users) && fresh(users[|old(users)|])
      ensures Table() == old(Table()) + [r]
      ensures store.items == old(store.items)[UsersKey := UserList(Table())]
      ensures old(UniqueNames(Table())) ==> UniqueNames(Table())
    {
      ghost var before := Snapshot(users);
      if UniqueNames(before) {
        AppendKeepsUnique(before, r);
      }
      var a := new Account(r);
      DistinctSnoc(users, a);
      var table := Snapshot(users) + [r];
      users := users + [a];
      assert Snapshot(users) == table;
      store.items := store.items[UsersKey := UserList(table)];
    }

    /** The delete branch: the user's saved ledger is removed, then every
        account of that name, and the table is saved. */
    method Remove(name: string)
      requires Valid()
      modifies this`users, store
      ensures Valid()
      ensures users == AccountsWithout(old(users), name)
      ensures Table() == RecordsWithout(old(Table()), name)
      ensures store.items == (old(store.items) - {ExpensesKey(name)})[UsersKey := UserList(Table())]
    {
      ghost var before := Snapshot(users);
      DeleteFacts(users, name);
      var kept := AccountsWithout(users, name);
      var table := Snapshot(kept);
      assert table == RecordsWithout(before, name);
      store.items := (store.items - {ExpensesKey(name)})[UsersKey := UserList(table)];
      users := kept;
      assert Snapshot(users) == table;
    }
  }

  /** What the delete branch relies on, in one place. */
  lemma DeleteFacts(us: seq<Account>, name: string)
    ensures Snapshot(AccountsWithout(us, name)) == RecordsWithout(Snapshot(us), name)
    ensures Distinct(us) ==> Distinct(AccountsWithout(us, name))
  {
    SnapshotWithout(us, name);
    if Distinct(us) {
      FilterKeepsDistinct(us, name);
    }
  }

  /** Dropping accounts keeps the remaining objects distinct. */
  lemma {:induction false} FilterKeepsDistinct(us: seq<Account>, name: string)
    requires Distinct(us)
    ensures Distinct(AccountsWithout(us, name))
  {
    if us != [] {
      var n := |us| - 1;
      var prefix, last := us[..n], us[n];
      assert us == prefix + [last];
      assert Distinct(prefix);
      FilterKeepsDistinct(prefix, name);
      if last.username != name {
        var init := AccountsWithout(prefix, name);
        assert AccountsWithout(us, name) == init + [last];
        assert last !in prefix;
        FilterMembers(prefix, (u: Account) => u.username != name);
        DistinctSnoc(init, last);
      }
    }
  }
}
