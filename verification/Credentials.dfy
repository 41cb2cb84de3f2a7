/** The device's login: who its operator is, and how the settings form may change the
    operator's name, password and the authentication backend. Passwords are judged by a
    policy whose inside is not modelled. */
module Credentials {
  import opened Values

  type Secret = int

  /** A row of the user table; `id` grows with every insertion. */
  datatype User = User(id: int, name: string, secret: Secret, active: bool, superuser: bool)

  datatype Policy = Policy(verifies: (string, Secret) -> bool, hash: string -> Secret, strong: (string, string) -> bool)

  const BASIC := "auth_basic"

  /** What the settings form posts; an empty field was left alone. */
  datatype Form = Form(backend: string, current: string, name: string, pwd: string, confirm: string)

  datatype Error =
    | UnknownBackend
    | NotTheOperator
    | CurrentPasswordMissing
    | CurrentPasswordWrong
    | NameTaken
    | NameMissing
    | PasswordMissing
    | PasswordsDiffer
    | PasswordWeak

  datatype Result<T> = Ok(value: T) | Err(error: Error)

  // ----- The operator -----

  predicate Administers(u: User) {
    u.active && u.superuser
  }

  function FirstAdministrator(users: seq<User>, from: nat): Option<nat>
    requires from <= |users|
    decreases |users| - from
  {
    if from == |users| then None
    else if Administers(users[from]) then Some(from)
    else FirstAdministrator(users, from + 1)
  }

  /** `_persisted_operator`: the first active superuser by id, else the first user. */
  function Operator(users: seq<User>): Option<nat> {
    var i := FirstAdministrator(users, 0);
    if i.Some? then i else if users != [] then Some(0) else None
  }

  lemma {:induction false} FirstAdministratorIsFirst(users: seq<User>, from: nat)
    requires from <= |users|
    ensures var i := FirstAdministrator(users, from);
      match i
      case Some(k) =>
        from <= k < |users| && Administers(users[k]) && forall j :: from <= j < k ==> !Administers(users[j])
      case None => forall j :: from <= j < |users| ==> !Administers(users[j])
    decreases |users| - from
  {
    if from < |users| && !Administers(users[from]) {
      FirstAdministratorIsFirst(users, from + 1);
    }
  }

  predicate IsOperator(users: seq<User>, i: nat) {
    && i < |users|
    && if users[i].active && users[i].superuser
       then forall j :: 0 <= j < i ==> !(users[j].active && users[j].superuser)
       else i == 0 && forall j :: 0 <= j < |users| ==> !(users[j].active && users[j].superuser)
  }

  lemma OperatorIs(users: seq<User>)
    ensures match Operator(users)
      case Some(i) => IsOperator(users, i)
      case None => users == []
    ensures forall i: nat :: IsOperator(users, i) ==> Operator(users) == Some(i)
  {
    FirstAdministratorIsFirst(users, 0);
  }

  // ----- Applying a form -----

  /** Whether the current password was supplied, and is right. */
  function CurrentCorrect(users: seq<User>, form: Form, policy: Policy): Option<bool> {
    if form.current == "" then None
    else match Operator(users)
      case Some(i) => OperatorIs(users); Some(policy.verifies(form.current, users[i].secret))
      case None => Some(false)
  }

  function Challenge(correct: Option<bool>): Option<Error> {
    match correct
    case None => Some(CurrentPasswordMissing)
    case Some(ok) => if ok then None else Some(CurrentPasswordWrong)
  }

  predicate TakenByAnother(users: seq<User>, i: nat, name: string) {
    exists j :: 0 <= j < |users| && j != i && users[j].name == name
  }

  /** `_update_existing_operator`, on a copy that is saved only at the end. */
  function UpdatedOperator(users: seq<User>, i: nat, form: Form, correct: Option<bool>, policy: Policy): Result<User>
    requires i < |users|
  {
    var renames := form.name != "" && form.name != users[i].name;
    if renames && Challenge(correct).Some? then Err(Challenge(correct).value)
    else if renames && TakenByAnother(users, i, form.name) then Err(NameTaken)
    else
      var named := if renames then users[i].(name := form.name) else users[i];
      if form.pwd == "" then Ok(named)
      else if Challenge(correct).Some? then Err(Challenge(correct).value)
      else if form.pwd != form.confirm then Err(PasswordsDiffer)
      else if !policy.strong(form.pwd, named.name) then Err(PasswordWeak)
      else Ok(named.(secret := policy.hash(form.pwd)))
  }

  /** `_create_initial_operator`, reached only when the table is empty. */
  function InitialOperator(form: Form, id: int, policy: Policy): Result<User> {
    if form.name == "" then Err(NameMissing)
    else if form.pwd == "" then Err(PasswordMissing)
    else if form.pwd != form.confirm then Err(PasswordsDiffer)
    else if !policy.strong(form.pwd, form.name) then Err(PasswordWeak)
    else Ok(User(id, form.name, policy.hash(form.pwd), true, true))
  }

  /** `apply_auth_settings`. `session` is the id of the authenticated user, if any. */
  function Apply(users: seq<User>, session: Option<int>, prev: string, form: Form, nextId: int,
                 policy: Policy): Result<seq<User>> {
    if form.backend != "" && form.backend != BASIC then Err(UnknownBackend)
    else match Operator(users)
      case Some(i) =>
        OperatorIs(users);
        var correct := CurrentCorrect(users, form, policy);
        if session.Some? && session.value != users[i].id then Err(NotTheOperator)
        else if form.backend != prev && Challenge(correct).Some? then Err(Challenge(correct).value)
        else if form.backend != BASIC then Ok(users)
        else (match UpdatedOperator(users, i, form, correct, policy)
              case Ok(u) => Ok(users[i := u])
              case Err(e) => Err(e))
      case None =>
        if form.backend != BASIC then Ok(users)
        else (match InitialOperator(form, nextId, policy)
              case Ok(u) => Ok(users + [u])
              case Err(e) => Err(e))
  }

  // ----- One save -----

  /** Every condition the form must meet when an operator exists. */
  predicate Acceptable(users: seq<User>, i: nat, session: Option<int>, prev: string, form: Form, policy: Policy)
    requires i < |users|
  {
    var proven := form.current != "" && policy.verifies(form.current, users[i].secret);
    var renames := form.name != "" && form.name != users[i].name;
    && form.backend in {"", BASIC}
    && (session.None? || session.value == users[i].id)
    && (form.backend != prev || (form.backend == BASIC && (renames || form.pwd != "")) ==> proven)
    && (form.backend == BASIC && renames ==> forall j :: 0 <= j < |users| && j != i ==> users[j].name != form.name)
    && (form.backend == BASIC && form.pwd != "" ==>
          form.pwd == form.confirm && policy.strong(form.pwd, if form.name != "" then form.name else users[i].name))
  }

  lemma SaveIsAcceptedIff(users: seq<User>, i: nat, session: Option<int>, prev: string, form: Form, nextId: int,
                          policy: Policy)
    requires IsOperator(users, i)
    ensures Apply(users, session, prev, form, nextId, policy).Ok? <==> Acceptable(users, i, session, prev, form, policy)
  {
    OperatorIs(users);
  }

  /** Without a user no password is right; the current password is otherwise judged
      against the operator's. */
  lemma CurrentPasswordIsTheOperators(users: seq<User>, form: Form, policy: Policy)
    ensures CurrentCorrect(users, form, policy) ==
      if form.current == "" then None
      else Some(exists i: nat :: IsOperator(users, i) && policy.verifies(form.current, users[i].secret))
  {
    OperatorIs(users);
  }

  /** Why a save is rejected: the first check to fail, in this order. */
  lemma RejectionNamesTheFirstFault(users: seq<User>, i: nat, session: Option<int>, prev: string, form: Form,
                                    nextId: int, policy: Policy)
    requires IsOperator(users, i) && Apply(users, session, prev, form, nextId, policy).Err?
    ensures var proven := form.current != "" && policy.verifies(form.current, users[i].secret);
      var unproven := if form.current == "" then CurrentPasswordMissing else CurrentPasswordWrong;
      var renames := form.name != "" && form.name != users[i].name;
      Apply(users, session, prev, form, nextId, policy).error ==
        if form.backend != "" && form.backend != BASIC then UnknownBackend
        else if session.Some? && session.value != users[i].id then NotTheOperator
        else if !proven && (form.backend != prev || renames || form.pwd != "") then unproven
        else if renames && exists j :: 0 <= j < |users| && j != i && users[j].name == form.name then NameTaken
        else if form.pwd != form.confirm then PasswordsDiffer
        else PasswordWeak
  {
    OperatorIs(users);
  }

  predicate SameRole(a: User, b: User) {
    a.id == b.id && a.active == b.active && a.superuser == b.superuser
  }

  /** An accepted save touches the operator's row alone, keeps who the operator is, and
      does to name and password exactly what was asked. */
  lemma AcceptedSaveChangesOnlyTheOperator(users: seq<User>, i: nat, session: Option<int>, prev: string, form: Form,
                                           nextId: int, policy: Policy)
    requires IsOperator(users, i) && Apply(users, session, prev, form, nextId, policy).Ok?
    ensures var users' := Apply(users, session, prev, form, nextId, policy).value;
      && |users'| == |users| && SameRole(users'[i], users[i]) && IsOperator(users', i)
      && (forall j :: 0 <= j < |users| && j != i ==> users'[j] == users[j])
      && users'[i].name == (if form.backend == BASIC && form.name != "" then form.name else users[i].name)
      && users'[i].secret
         == (if form.backend == BASIC && form.pwd != "" then policy.hash(form.pwd) else users[i].secret)
  {
    OperatorIs(users);
  }

  /** Without users a form that leaves authentication off is accepted as it stands. */
  lemma OffNeedsNoUser(session: Option<int>, prev: string, form: Form, nextId: int, policy: Policy)
    requires form.backend != BASIC
    ensures Apply([], session, prev, form, nextId, policy) == if form.backend == "" then Ok([]) else Err(UnknownBackend)
  {
    OperatorIs([]);
  }

  /** The first save that turns authentication on creates a superuser who is the
      operator and can log in. */
  lemma FirstEnableCreatesTheOperator(session: Option<int>, prev: string, form: Form, nextId: int, policy: Policy)
    requires form.backend == BASIC && forall p :: policy.verifies(p, policy.hash(p))
    ensures var r := Apply([], session, prev, form, nextId, policy);
      && (r.Ok? <==>
          form.name != "" && form.pwd != "" && form.pwd == form.confirm && policy.strong(form.pwd, form.name))
      && (r.Ok? ==> |r.value| == 1 && IsOperator(r.value, 0) && r.value[0].name == form.name && r.value[0].id == nextId
                    && r.value[0].active && r.value[0].superuser && policy.verifies(form.pwd, r.value[0].secret))
      && (r.Err? ==> r.error == if form.name == "" then NameMissing else if form.pwd == "" then PasswordMissing
                                else if form.pwd != form.confirm then PasswordsDiffer else PasswordWeak)
  {
    OperatorIs([]);
  }

  // ----- Runs -----

  datatype State = State(users: seq<User>, backend: string, nextId: int)

  /** A settings save, whose backend may fail to be written after the users were; or a
      user added from the command line, under a name not taken. */
  datatype Step =
    | Save(session: Option<int>, form: Form, persisted: bool)
    | AddUser(name: string, secret: Secret, active: bool, superuser: bool)

  predicate NameFree(users: seq<User>, name: string) {
    forall j :: 0 <= j < |users| ==> users[j].name != name
  }

  /** With authentication on, a request without a session never reaches the form. */
  function Next(s: State, step: Step, policy: Policy): State {
    match step
    case Save(session, form, persisted) =>
      if s.backend != "" && session.None? then s
      else (match Apply(s.users, session, s.backend, form, s.nextId, policy)
            case Ok(users) => State(users, if persisted then form.backend else s.backend, s.nextId + 1)
            case Err(_) => s)
    case AddUser(name, secret, active, superuser) =>
      if NameFree(s.users, name)
      then s.(users := s.users + [User(s.nextId, name, secret, active, superuser)], nextId := s.nextId + 1) else s
  }

  function Run(s: State, steps: seq<Step>, policy: Policy): State
    decreases |steps|
  {
    if steps == [] then s else Run(Next(s, steps[0], policy), steps[1..], policy)
  }

  /** A save takes effect exactly when it comes with a session, or authentication is off,
      and meets every condition; it then does to the operator's row what was asked, and to
      the backend, if that write goes through. */
  lemma SaveTakesEffectIff(s: State, i: nat, session: Option<int>, form: Form, persisted: bool, policy: Policy)
    requires IsOperator(s.users, i)
    ensures var s', u := Next(s, Save(session, form, persisted), policy), s.users[i];
      var acts := (s.backend == "" || session.Some?) && Acceptable(s.users, i, session, s.backend, form, policy);
      var name := if form.name != "" then form.name else u.name;
      var secret := if form.pwd != "" then policy.hash(form.pwd) else u.secret;
      && s'.backend == (if acts && persisted then form.backend else s.backend)
      && s'.users == if acts && form.backend == BASIC
                     then s.users[i := User(u.id, name, secret, u.active, u.superuser)] else s.users
  {
    OperatorIs(s.users);
    SaveIsAcceptedIff(s.users, i, session, s.backend, form, s.nextId, policy);
    assert s.users[i := s.users[i]] == s.users;
  }

  /** Without users the form can be saved with authentication off, or creates the operator
      when it turns authentication on; any other user joins under a free name. */
  lemma UsersJoin(s: State, step: Step, policy: Policy)
    requires step.Save? ==> s.users == [] && s.backend == ""
    ensures var s' := Next(s, step, policy);
      match step
      case AddUser(name, secret, active, superuser) =>
        && s'.backend == s.backend
        && s'.users == if exists j :: 0 <= j < |s.users| && s.users[j].name == name then s.users
                       else s.users + [User(s.nextId, name, secret, active, superuser)]
      case Save(session, form, persisted) =>
        var creates := form.backend == BASIC && form.name != "" && form.pwd != "" && form.pwd == form.confirm
          && policy.strong(form.pwd, form.name);
        && s'.users == (if creates then [User(s.nextId, form.name, policy.hash(form.pwd), true, true)] else [])
        && s'.backend == if creates && persisted then BASIC else ""
  {
    OperatorIs(s.users);
  }

  predicate Inv(s: State) {
    && (s.backend == "" || s.backend == BASIC)
    && (s.backend == BASIC ==> s.users != [])
    && (forall j, k :: 0 <= j < k < |s.users| ==> s.users[j].id < s.users[k].id && s.users[j].name != s.users[k].name)
    && (forall j :: 0 <= j < |s.users| ==> s.users[j].id < s.nextId)
  }

  lemma SaveKeepsInv(s: State, i: nat, session: Option<int>, form: Form, persisted: bool, policy: Policy)
    requires Inv(s) && IsOperator(s.users, i)
    requires Apply(s.users, session, s.backend, form, s.nextId, policy).Ok?
    ensures Inv(State(Apply(s.users, session, s.backend, form, s.nextId, policy).value,
      if persisted then form.backend else s.backend, s.nextId + 1))
  {
    SaveIsAcceptedIff(s.users, i, session, s.backend, form, s.nextId, policy);
    AcceptedSaveChangesOnlyTheOperator(s.users, i, session, s.backend, form, s.nextId, policy);
    var users' := Apply(s.users, session, s.backend, form, s.nextId, policy).value;
    forall j, k | 0 <= j < k < |users'|
      ensures users'[j].id < users'[k].id && users'[j].name != users'[k].name
    {
      assert s.users[j].id < s.users[k].id && s.users[j].name != s.users[k].name;
    }
  }

  lemma NextKeepsInv(s: State, step: Step, policy: Policy)
    requires Inv(s)
    ensures Inv(Next(s, step, policy))
  {
    OperatorIs(s.users);
    if step.Save? && Operator(s.users).Some?
      && Apply(s.users, step.session, s.backend, step.form, s.nextId, policy).Ok? {
      SaveKeepsInv(s, Operator(s.users).value, step.session, step.form, step.persisted, policy);
    }
  }

  /** Whatever forms are posted, authentication is on only while an operator exists, and
      user names and ids stay unique. */
  lemma {:induction false} RunKeepsInv(s: State, steps: seq<Step>, policy: Policy)
    requires Inv(s)
    ensures Inv(Run(s, steps, policy))
    ensures var s' := Run(s, steps, policy); s'.backend == BASIC ==> Operator(s'.users).Some?
    decreases |steps|
  {
    OperatorIs(s.users);
    if steps != [] {
      NextKeepsInv(s, steps[0], policy);
      RunKeepsInv(Next(s, steps[0], policy), steps[1..], policy);
    }
  }

  /** The existing users and the backend are as they were. */
  predicate Kept(s: State, s': State) {
    s'.backend == s.backend && s.users <= s'.users
  }

  /** Name, password or backend of an existing operator change only by a save that
      supplied the password the operator had before; no other user changes at all. */
  lemma ChangeNeedsTheCurrentPassword(s: State, step: Step, policy: Policy, i: nat)
    requires Inv(s) && IsOperator(s.users, i)
    ensures var s' := Next(s, step, policy);
      && (Kept(s, s')
          || (step.Save? && step.form.current != "" && policy.verifies(step.form.current, s.users[i].secret)))
      && |s'.users| >= |s.users|
      && (forall j :: 0 <= j < |s.users| && j != i ==> s'.users[j] == s.users[j])
  {
    OperatorIs(s.users);
    if step.Save? && Apply(s.users, step.session, s.backend, step.form, s.nextId, policy).Ok? {
      SaveIsAcceptedIff(s.users, i, step.session, s.backend, step.form, s.nextId, policy);
      AcceptedSaveChangesOnlyTheOperator(s.users, i, step.session, s.backend, step.form, s.nextId, policy);
    }
  }

  /** None of these saves supplies a password that matches `secret`. */
  predicate Ignorant(steps: seq<Step>, secret: Secret, policy: Policy) {
    forall k :: 0 <= k < |steps| && steps[k].Save? && steps[k].form.current != "" ==>
      !policy.verifies(steps[k].form.current, secret)
  }

  /** Over any run, a user's row never changes while nobody supplies that user's
      password, whoever the operator becomes in the meantime. */
  lemma {:induction false} RowIsSafeWithoutItsPassword(s: State, steps: seq<Step>, policy: Policy, i: nat)
    requires Inv(s) && i < |s.users| && Ignorant(steps, s.users[i].secret, policy)
    ensures var s' := Run(s, steps, policy); i < |s'.users| && s'.users[i] == s.users[i]
    decreases |steps|
  {
    if steps != [] {
      OperatorIs(s.users);
      NextKeepsInv(s, steps[0], policy);
      ChangeNeedsTheCurrentPassword(s, steps[0], policy, Operator(s.users).value);
      RowIsSafeWithoutItsPassword(Next(s, steps[0], policy), steps[1..], policy, i);
    }
  }

  // ----- The user table, updated in place -----

  class AccountStore {
    var users: seq<User>
    var nextId: int

    constructor (users: seq<User>, nextId: int)
      ensures this.users == users && this.nextId == nextId
    {
      this.users, this.nextId := users, nextId;
    }

    /** The saved row changes only after every check has passed: an error leaves the
        table as it was. */
    method UpdateExistingOperator(i: nat, form: Form, correct: Option<bool>, policy: Policy)
      returns (error: Option<Error>)
      requires i < |users|
      modifies this`users
      ensures match UpdatedOperator(old(users), i, form, correct, policy)
        case Ok(u) => error == None && users == old(users)[i := u]
        case Err(e) => error == Some(e) && users == old(users)
    {
      var operator := users[i];
      var changed := false;
      if form.name != "" && form.name != operator.name {
        error := Challenge(correct);
        if error.Some? {
          return;
        }
        if TakenByAnother(users, i, form.name) {
          return Some(NameTaken);
        }
        operator := operator.(name := form.name);
        changed := true;
      }
      if form.pwd != "" {
        error := Challenge(correct);
        if error.Some? {
          return;
        }
        if form.pwd != form.confirm {
          return Some(PasswordsDiffer);
        }
        if !policy.strong(form.pwd, operator.name) {
          return Some(PasswordWeak);
        }
        operator := operator.(secret := policy.hash(form.pwd));
        changed := true;
      }
      if changed {
        users := users[i := operator];
      }
      error := None;
    }

    method ApplyAuthSettings(session: Option<int>, prev: string, form: Form, policy: Policy)
      returns (error: Option<Error>)
      modifies this
      ensures match Apply(old(users), session, prev, form, old(nextId), policy)
        case Ok(us) => error == None && users == us
        case Err(e) => error == Some(e) && users == old(users)
    {
      if form.backend != "" && form.backend != BASIC {
        return Some(UnknownBackend);
      }
      OperatorIs(users);
      var operator := Operator(users);
      if operator.Some? && session.Some? && session.value != users[operator.value].id {
        return Some(NotTheOperator);
      }
      var correct := CurrentCorrect(users, form, policy);
      if form.backend != prev && operator.Some? {
        error := Challenge(correct);
        if error.Some? {
          return;
        }
      }
      if form.backend != BASIC {
        return None;
      }
      if operator.Some? {
        error := UpdateExistingOperator(operator.value, form, correct, policy);
        return;
      }
      match InitialOperator(form, nextId, policy)
      case Err(e) =>
        return Some(e);
      case Ok(u) =>
        users, nextId := users + [u], nextId + 1;
        return None;
    }
  }
}
