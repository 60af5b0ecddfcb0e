/** The user administration screen: searching and filtering profiles, changing a
    user's status, role or profile, and the password-reset dialog. Each successful
    change asks for an audit-log entry. */
module ManageUsers {
  import opened Collections
  import opened Text

  datatype Role = Admin | Customer
  datatype AccountStatus = Active | Inactive | Suspended

  function RoleName(r: Role): string
  {
    match r
    case Admin => "admin"
    case Customer => "customer"
  }

  function AccountStatusName(s: AccountStatus): string
  {
    match s
    case Active => "active"
    case Inactive => "inactive"
    case Suspended => "suspended"
  }

  /** A row of the `profiles` table. */
  datatype User = User(
    id: string,
    email: string,
    fullName: string,
    phone: string,
    role: Role,
    status: AccountStatus,
    lastLogin: Option<string>,
    createdAt: string,
    updatedAt: string)

  datatype RoleFilter = AllRoles | OnlyRole(role: Role)
  datatype StatusFilter = AllStatuses | OnlyStatus(status: AccountStatus)

  // ---------------------------------------------------------------------------
  // Search and filters

  /** The case-insensitive half of the search: the name or the email contains the term. */
  predicate NameOrEmailMatches(u: User, term: string)
  {
    Includes(LowerStr(u.fullName), LowerStr(term)) || Includes(LowerStr(u.email), LowerStr(term))
  }

  /** Name and email match the term case-insensitively; the phone by plain substring. */
  predicate MatchesSearch(u: User, term: string)
  {
    NameOrEmailMatches(u, term) || Includes(u.phone, term)
  }

  predicate MatchesRole(u: User, f: RoleFilter)
  {
    f.AllRoles? || u.role == f.role
  }

  predicate MatchesStatus(u: User, f: StatusFilter)
  {
    f.AllStatuses? || u.status == f.status
  }

  function FilteredUsers(users: seq<User>, term: string, rf: RoleFilter, sf: StatusFilter): seq<User>
  {
    Filter(users, (u: User) => MatchesSearch(u, term) && MatchesRole(u, rf) && MatchesStatus(u, sf))
  }

  /** A user is listed iff it matches the search, the role filter and the status filter,
      and the list keeps the table's order. With an empty search and both filters at
      'all' every user is listed. */
  lemma FilteredUsersSpec(users: seq<User>, term: string, rf: RoleFilter, sf: StatusFilter)
    ensures forall u :: u in FilteredUsers(users, term, rf, sf) <==>
              u in users && MatchesSearch(u, term) && MatchesRole(u, rf) && MatchesStatus(u, sf)
    ensures IsSublist(FilteredUsers(users, term, rf, sf), users)
    ensures forall u :: multiset(FilteredUsers(users, term, rf, sf))[u] ==
              if MatchesSearch(u, term) && MatchesRole(u, rf) && MatchesStatus(u, sf) then multiset(users)[u] else 0
    ensures term == "" && rf == AllRoles && sf == AllStatuses ==> FilteredUsers(users, term, rf, sf) == users
  {
    var p := (u: User) => MatchesSearch(u, term) && MatchesRole(u, rf) && MatchesStatus(u, sf);
    forall u ensures u in FilteredUsers(users, term, rf, sf) <==> u in users && p(u) {
      FilterMembership(users, p, u);
    }
    FilterIsSublist(users, p);
    forall u ensures multiset(FilteredUsers(users, term, rf, sf))[u] == if p(u) then multiset(users)[u] else 0 {
      FilterMultiset(users, p, u);
    }
    if term == "" && rf == AllRoles && sf == AllStatuses {
      forall i | 0 <= i < |users| ensures p(users[i]) {
        IncludesEmpty(LowerStr(users[i].fullName));
      }
      FilterKeepsAll(users, p);
    }
  }

  /** Any term that equals a piece of the name or the email up to case finds the user:
      "pizza" finds "Pizza Palace" and "PIZZA@shop.et". */
  lemma SearchIgnoresCase(u: User, a: string, b: string, c: string, term: string)
    requires u.fullName == a + b + c || u.email == a + b + c
    requires LowerStr(term) == LowerStr(b)
    ensures MatchesSearch(u, term)
  {
    LowerStrAppend(a + b, c);
    LowerStrAppend(a, b);
    IncludesMiddle(LowerStr(a), LowerStr(b), LowerStr(c));
  }

  /** Name and email matching sees only lower-cased text: users whose names and emails
      agree up to case, searched with terms that agree up to case, match alike. */
  lemma SearchCaseBlind(u: User, v: User, t1: string, t2: string)
    requires LowerStr(u.fullName) == LowerStr(v.fullName) && LowerStr(u.email) == LowerStr(v.email)
    requires LowerStr(t1) == LowerStr(t2)
    ensures NameOrEmailMatches(u, t1) <==> NameOrEmailMatches(v, t2)
  {
  }

  // ---------------------------------------------------------------------------
  // Local updates

  /** `prev.map(user => user.id === userId ? f(user) : user)`. */
  function UpdateWhere(users: seq<User>, id: string, f: User -> User): seq<User>
  {
    if users == [] then []
    else [if users[0].id == id then f(users[0]) else users[0]] + UpdateWhere(users[1..], id, f)
  }

  lemma {:induction false} UpdateWhereEffect(users: seq<User>, id: string, f: User -> User)
    ensures var r := UpdateWhere(users, id, f);
      && |r| == |users|
      && forall i :: 0 <= i < |users| ==> r[i] == if users[i].id == id then f(users[i]) else users[i]
  {
    if users != [] {
      UpdateWhereEffect(users[1..], id, f);
    }
  }

  /** The optional fields of `Partial<User>` the edit form sends. */
  datatype ProfileUpdate = ProfileUpdate(fullName: Option<string>, phone: Option<string>)

  /** `{...user, ...updates}`: supplied fields replace, absent ones stay. */
  function Merge(u: User, upd: ProfileUpdate): User
  {
    u.(fullName := if upd.fullName.Some? then upd.fullName.value else u.fullName,
       phone := if upd.phone.Some? then upd.phone.value else u.phone)
  }

  function SetStatus(users: seq<User>, id: string, s: AccountStatus): seq<User>
  {
    UpdateWhere(users, id, (u: User) => u.(status := s))
  }

  function SetRole(users: seq<User>, id: string, r: Role): seq<User>
  {
    UpdateWhere(users, id, (u: User) => u.(role := r))
  }

  function MergeProfile(users: seq<User>, id: string, upd: ProfileUpdate): seq<User>
  {
    UpdateWhere(users, id, (u: User) => Merge(u, upd))
  }

  /** A status change touches only the status of the users with that id. The local
      row keeps its `updated_at`, although the store is sent a fresh one. */
  lemma SetStatusEffect(users: seq<User>, id: string, s: AccountStatus)
    ensures var r := SetStatus(users, id, s);
      && |r| == |users|
      && (forall i :: 0 <= i < |users| && users[i].id != id ==> r[i] == users[i])
      && (forall i :: 0 <= i < |users| && users[i].id == id ==> r[i] == users[i].(status := s))
  {
    UpdateWhereEffect(users, id, (u: User) => u.(status := s));
  }

  lemma SetRoleEffect(users: seq<User>, id: string, r: Role)
    ensures var res := SetRole(users, id, r);
      && |res| == |users|
      && (forall i :: 0 <= i < |users| && users[i].id != id ==> res[i] == users[i])
      && (forall i :: 0 <= i < |users| && users[i].id == id ==> res[i] == users[i].(role := r))
  {
    UpdateWhereEffect(users, id, (u: User) => u.(role := r));
  }

  /** A profile update merges only the supplied fields into the matching users. */
  lemma MergeProfileEffect(users: seq<User>, id: string, upd: ProfileUpdate)
    ensures var r := MergeProfile(users, id, upd);
      && |r| == |users|
      && (forall i :: 0 <= i < |users| && users[i].id != id ==> r[i] == users[i])
      && (forall i :: 0 <= i < |users| && users[i].id == id ==>
            && r[i].fullName == (if upd.fullName.Some? then upd.fullName.value else users[i].fullName)
            && r[i].phone == (if upd.phone.Some? then upd.phone.value else users[i].phone)
            && r[i].(fullName := users[i].fullName, phone := users[i].phone) == users[i])
  {
    UpdateWhereEffect(users, id, (u: User) => Merge(u, upd));
  }

  /** An update with no fields leaves the list as it was. */
  lemma {:induction false} MergeNothing(users: seq<User>, id: string)
    ensures MergeProfile(users, id, ProfileUpdate(None, None)) == users
  {
    if users != [] {
      MergeNothing(users[1..], id);
    }
  }

  // ---------------------------------------------------------------------------
  // Audit requests

  /** What one `profiles` update sends: the changed fields and `updated_at`, for the row
      with that id. */
  datatype ProfileChange = StatusChange(status: AccountStatus) | RoleChange(role: Role)
                         | DetailsChange(updates: ProfileUpdate)
  datatype ProfileWrite = ProfileWrite(userId: string, change: ProfileChange, updatedAt: string)

  /** The arguments of the `log_admin_action` call; the target type is always 'user'. */
  datatype LogRequest = LogRequest(actionType: string, targetId: string, details: map<string, string>)

  const MinPasswordLength: nat := 6

  /** `!newPassword || newPassword.length < 6` refuses; `length` counts UTF-16 units. */
  predicate PasswordAcceptable(p: string)
  {
    p != "" && Utf16Length(p) >= MinPasswordLength
  }

  /** A password is accepted exactly when it has at least six UTF-16 code units: the
      empty one never, six characters always, fewer than three never, and for text in
      the Basic Multilingual Plane exactly from six characters on. */
  lemma PasswordRule(p: string)
    ensures PasswordAcceptable(p) <==> Utf16Length(p) >= 6
    ensures |p| >= 6 ==> PasswordAcceptable(p)
    ensures |p| < 3 ==> !PasswordAcceptable(p)
    ensures (forall i :: 0 <= i < |p| ==> p[i] as int <= 0xFFFF) ==> (PasswordAcceptable(p) <==> |p| >= 6)
  {
    if forall i :: 0 <= i < |p| ==> p[i] as int <= 0xFFFF {
      Utf16LengthBmp(p);
    }
  }

  /** Three emoji make six code units, so the code accepts them. */
  lemma PasswordCountsCodeUnits()
    ensures PasswordAcceptable("\U{1F600}\U{1F600}\U{1F600}")
    ensures !PasswordAcceptable("abcde")
  {
    var e := "\U{1F600}\U{1F600}\U{1F600}";
    assert e[1..][1..] == "\U{1F600}";
    assert e[1..] == "\U{1F600}\U{1F600}";
  }

  class UsersConsole {
    var users: seq<User>
    var searchTerm: string
    var roleFilter: RoleFilter
    var statusFilter: StatusFilter
    var editingUser: Option<User>
    var showPasswordReset: Option<string>
    var newPassword: string

    constructor ()
      ensures users == [] && searchTerm == "" && roleFilter == AllRoles && statusFilter == AllStatuses
      ensures editingUser == None && showPasswordReset == None && newPassword == ""
    {
      users := [];
      searchTerm := "";
      roleFilter := AllRoles;
      statusFilter := AllStatuses;
      editingUser := None;
      showPasswordReset := None;
      newPassword := "";
    }

    /** `fetchUsers`: the rows (none for a null result) replace the list; an error keeps it. */
    method Load(ok: bool, data: Option<seq<User>>)
      modifies this`users
      ensures users == if !ok then old(users) else if data.Some? then data.value else []
    {
      if ok {
        users := if data.Some? then data.value else [];
      }
    }

    method SetFilters(term: string, rf: RoleFilter, sf: StatusFilter)
      modifies this`searchTerm, this`roleFilter, this`statusFilter
      ensures searchTerm == term && roleFilter == rf && statusFilter == sf
    {
      searchTerm, roleFilter, statusFilter := term, rf, sf;
    }

    function Visible(): seq<User>
      reads this
    {
      FilteredUsers(users, searchTerm, roleFilter, statusFilter)
    }

    /** `updateUserStatus`: the `profiles` update is sent with its own clock read
        (`writeClock`); the list changes, and the audit entry (stamped `now`) is
        requested, only when the store update succeeded. */
    method UpdateUserStatus(userId: string, newStatus: AccountStatus, writeClock: string, now: string,
                            storeOk: bool)
      returns (write: ProfileWrite, log: Option<LogRequest>)
      modifies this`users
      ensures write == ProfileWrite(userId, StatusChange(newStatus), writeClock)
      ensures users == if storeOk then SetStatus(old(users), userId, newStatus) else old(users)
      ensures log.Some? <==> storeOk
      ensures log.Some? ==>
        log.value == LogRequest("user_status_update", userId,
                                map["new_status" := AccountStatusName(newStatus), "timestamp" := now])
    {
      write := ProfileWrite(userId, StatusChange(newStatus), writeClock);
      if storeOk {
        users := SetStatus(users, userId, newStatus);
        log := Some(LogRequest("user_status_update", userId,
                               map["new_status" := AccountStatusName(newStatus), "timestamp" := now]));
      } else {
        log := None;
      }
    }

    method UpdateUserRole(userId: string, newRole: Role, writeClock: string, now: string, storeOk: bool)
      returns (write: ProfileWrite, log: Option<LogRequest>)
      modifies this`users
      ensures write == ProfileWrite(userId, RoleChange(newRole), writeClock)
      ensures users == if storeOk then SetRole(old(users), userId, newRole) else old(users)
      ensures log.Some? <==> storeOk
      ensures log.Some? ==>
        log.value == LogRequest("user_role_update", userId, map["new_role" := RoleName(newRole), "timestamp" := now])
    {
      write := ProfileWrite(userId, RoleChange(newRole), writeClock);
      if storeOk {
        users := SetRole(users, userId, newRole);
        log := Some(LogRequest("user_role_update", userId, map["new_role" := RoleName(newRole), "timestamp" := now]));
      } else {
        log := None;
      }
    }

    /** `updateUserProfile`: on success the fields are merged and the edit dialog closes. */
    method UpdateUserProfile(userId: string, updates: ProfileUpdate, writeClock: string, now: string,
                             storeOk: bool)
      returns (write: ProfileWrite, log: Option<LogRequest>)
      modifies this`users, this`editingUser
      ensures write == ProfileWrite(userId, DetailsChange(updates), writeClock)
      ensures users == if storeOk then MergeProfile(old(users), userId, updates) else old(users)
      ensures editingUser == if storeOk then None else old(editingUser)
      ensures log.Some? <==> storeOk
      ensures log.Some? ==> log.value == LogRequest("user_profile_update", userId, map["timestamp" := now])
    {
      write := ProfileWrite(userId, DetailsChange(updates), writeClock);
      if storeOk {
        users := MergeProfile(users, userId, updates);
        editingUser := None;
        log := Some(LogRequest("user_profile_update", userId, map["timestamp" := now]));
      } else {
        log := None;
      }
    }

    /** The Edit button and the two inputs of the edit dialog. */
    method StartEdit(u: User)
      modifies this`editingUser
      ensures editingUser == Some(u)
    {
      editingUser := Some(u);
    }

    method EditDraft(fullName: string, phone: string)
      modifies this`editingUser
      requires editingUser.Some?
      ensures editingUser == Some(old(editingUser).value.(fullName := fullName, phone := phone))
    {
      editingUser := Some(editingUser.value.(fullName := fullName, phone := phone));
    }

    method CancelEdit()
      modifies this`editingUser
      ensures editingUser == None
    {
      editingUser := None;
    }

    /** Saving the edit dialog sends exactly the draft's name and phone. */
    method SubmitEdit(writeClock: string, now: string, storeOk: bool)
      returns (write: ProfileWrite, log: Option<LogRequest>)
      modifies this`users, this`editingUser
      requires editingUser.Some?
      ensures var d := old(editingUser).value;
        users == if storeOk then MergeProfile(old(users), d.id, ProfileUpdate(Some(d.fullName), Some(d.phone)))
                 else old(users)
      ensures editingUser == if storeOk then None else old(editingUser)
      ensures var d := old(editingUser).value;
        write == ProfileWrite(d.id, DetailsChange(ProfileUpdate(Some(d.fullName), Some(d.phone))), writeClock)
      ensures log.Some? <==> storeOk
    {
      var d := editingUser.value;
      write, log := UpdateUserProfile(d.id, ProfileUpdate(Some(d.fullName), Some(d.phone)), writeClock, now, storeOk);
    }

    method OpenPasswordReset(userId: string)
      modifies this`showPasswordReset
      ensures showPasswordReset == Some(userId)
    {
      showPasswordReset := Some(userId);
    }

    method TypePassword(p: string)
      modifies this`newPassword
      ensures newPassword == p
    {
      newPassword := p;
    }

    method CancelPasswordReset()
      modifies this`showPasswordReset, this`newPassword
      ensures showPasswordReset == None && newPassword == ""
    {
      showPasswordReset := None;
      newPassword := "";
    }

    /** `resetUserPassword`: a password that is empty or shorter than six UTF-16 units is
        refused before anything else happens; otherwise the reset is logged and the
        dialog closes with the field cleared. */
    method ResetUserPassword(userId: string, now: string) returns (accepted: bool, log: Option<LogRequest>)
      modifies this`showPasswordReset, this`newPassword
      ensures accepted <==> PasswordAcceptable(old(newPassword))
      ensures !accepted ==> log.None? && showPasswordReset == old(showPasswordReset) && newPassword == old(newPassword)
      ensures accepted ==> log == Some(LogRequest("password_reset", userId,
                                                  map["timestamp" := now, "reset_by_admin" := "true"]))
      ensures accepted ==> showPasswordReset == None && newPassword == ""
    {
      if !PasswordAcceptable(newPassword) {
        return false, None;
      }
      accepted := true;
      log := Some(LogRequest("password_reset", userId, map["timestamp" := now, "reset_by_admin" := "true"]));
      showPasswordReset := None;
      newPassword := "";
    }
  }
}
