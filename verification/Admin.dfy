// Provisioning of the built-in administrator by any number of server replicas that
// share one database and one password file. A step is what a replica does between
// two points where another one, an API call or a crash can come in.
module Admin {
  import opened Text

  const ADMIN := "admin"

  // `password` is the one password the stored hash verifies.
  datatype User = User(password: string, mustChange: bool, isAdmin: bool)

  // The environment variables one start of a replica sees.
  datatype Env = Env(skip: bool, demo: bool, adminPassword: Option<string>)

  const INSECURE_DEFAULTS := ["admin", "password", "changeme", "admin123", "Password1",
                              "letmein", "welcome", "123456", "admin1234", "default"]

  predicate Insecure(password: string) {
    exists k | 0 <= k < |INSECURE_DEFAULTS| :: Lower(INSECURE_DEFAULTS[k]) == Lower(password)
  }

  // Whether a settled administrator is put back into must-change by this start.
  predicate Relocks(env: Env) {
    !env.demo && env.adminPassword.Some? && Insecure(env.adminPassword.value)
  }

  // The first password and its must-change flag; `generated` is the random one.
  function FirstPassword(env: Env, generated: string): (string, bool) {
    match env.adminPassword
    case Some(p) =>
      if p != "" then (p, Relocks(env)) else (generated, true)
    case None => (generated, true)
  }

  datatype Phase =
    | Idle
    | Waiting(env: Env)
    | Reading(env: Env)
    | Checking
    | Rewriting(password: string)
    | Rewritten(password: string)
    | Relocking
    | Finishing(answer: bool)
    | Creating(password: string)
    | Created(password: string, mustChange: bool)
    | Returned(result: Option<bool>)

  predicate Critical(p: Phase) {
    !p.Idle? && !p.Waiting? && !p.Returned?
  }

  datatype State = State(
    users: map<string, User>,
    file: Option<string>,
    holder: Option<nat>,
    phases: map<nat, Phase>,
    creations: nat)

  function PhaseOf(s: State, r: nat): Phase {
    if r in s.phases then s.phases[r] else Idle
  }

  // A failing write can leave the old file, or a torn one.
  datatype Outcome = Complete | Untouched | Torn(content: string)

  datatype Event =
    | Start(r: nat, env: Env)
    | TakeLock(r: nat)
    | Read(r: nat, found: Option<string>, generated: string)
    | CheckFile(r: nat, generated: string)
    | Write(r: nat, outcome: Outcome)
    | Commit(r: nat)
    | Abort(r: nat) // a crash, or a database error that ends the start
    | ChangePassword(who: string, password: string)
    | ResetPassword(who: string, password: string)
    | ForceChange(who: string)
    | RemoveFile

  predicate Enabled(s: State, e: Event) {
    match e
    case Start(r, _) => PhaseOf(s, r).Idle? || PhaseOf(s, r).Returned?
    case TakeLock(r) => PhaseOf(s, r).Waiting? && s.holder == None
    case Read(r, Some(who), _) => PhaseOf(s, r).Reading? && who in s.users && s.users[who].isAdmin
    case Read(r, None, _) => PhaseOf(s, r).Reading? && forall u | u in s.users :: !s.users[u].isAdmin
    case CheckFile(r, _) => PhaseOf(s, r).Checking?
    case Write(r, _) => PhaseOf(s, r).Rewriting? || PhaseOf(s, r).Creating?
    case Commit(r) =>
      var p := PhaseOf(s, r);
      p.Rewritten? || p.Relocking? || p.Finishing? || p.Created?
    case Abort(_) => true
    case ChangePassword(who, _) => who in s.users
    case ResetPassword(who, _) => who in s.users
    case ForceChange(who) => who in s.users
    case RemoveFile => true
  }

  function At(s: State, r: nat, p: Phase): State {
    s.(phases := s.phases[r := p])
  }

  // The end of the transaction, which also releases the lock.
  function Release(s: State, r: nat, p: Phase): State {
    At(s, r, p).(holder := if s.holder == Some(r) then None else s.holder)
  }

  function AfterRead(s: State, r: nat, env: Env, who: Option<string>, generated: string): Phase
    requires who.Some? ==> who.value in s.users
  {
    match who
    case Some(name) =>
      if s.users[name].mustChange then Checking
      else if Relocks(env) then Relocking
      else Finishing(false)
    case None =>
      var (password, mustChange) := FirstPassword(env, generated);
      if mustChange then Creating(password) else Created(password, false)
  }

  // UPDATE users SET must_change_password = true WHERE username = ...
  function Forced(users: map<string, User>, who: string): map<string, User> {
    if who in users then users[who := users[who].(mustChange := true)] else users
  }

  // UPDATE users SET password_hash = ... WHERE username = 'admin'
  function Rehashed(users: map<string, User>, password: string): map<string, User> {
    if ADMIN in users then users[ADMIN := users[ADMIN].(password := password)] else users
  }

  // The INSERT, whose conflict clause leaves is_admin as it was.
  function Upserted(users: map<string, User>, password: string, mustChange: bool): map<string, User> {
    users[ADMIN := User(password, mustChange, ADMIN in users ==> users[ADMIN].isAdmin)]
  }

  function Step(s: State, e: Event): State
    requires Enabled(s, e)
  {
    match e
    case Start(r, env) => At(s, r, if env.skip then Returned(Some(false)) else Waiting(env))
    case TakeLock(r) => At(s, r, Reading(PhaseOf(s, r).env)).(holder := Some(r))
    case Read(r, who, generated) => At(s, r, AfterRead(s, r, PhaseOf(s, r).env, who, generated))
    case CheckFile(r, generated) => At(s, r, if s.file.Some? then Finishing(true) else Rewriting(generated))
    case Write(r, outcome) => AfterWrite(s, r, outcome)
    case Commit(r) => Committed(s, r)
    case Abort(r) => Release(s, r, Idle)
    case ChangePassword(who, password) =>
      s.(users := s.users[who := s.users[who].(password := password, mustChange := false)])
    case ResetPassword(who, password) =>
      s.(users := s.users[who := s.users[who].(password := password, mustChange := true)])
    case ForceChange(who) => s.(users := Forced(s.users, who))
    case RemoveFile => s.(file := None)
  }

  function AfterWrite(s: State, r: nat, outcome: Outcome): State
    requires Enabled(s, Write(r, outcome))
  {
    var p := PhaseOf(s, r);
    match outcome
    case Complete =>
      At(s, r, if p.Rewriting? then Rewritten(p.password) else Created(p.password, true)).(file := Some(p.password))
    case _ =>
      var t := if outcome.Torn? then s.(file := Some(outcome.content)) else s;
      if p.Rewriting? then At(t, r, Finishing(true)) else Release(t, r, Returned(None))
  }

  function Committed(s: State, r: nat): State
    requires Enabled(s, Commit(r))
  {
    match PhaseOf(s, r)
    case Rewritten(password) => Release(s.(users := Rehashed(s.users, password)), r, Returned(Some(true)))
    case Relocking => Release(s.(users := Forced(s.users, ADMIN)), r, Returned(Some(true)))
    case Created(password, mustChange) =>
      Release(s.(users := Upserted(s.users, password, mustChange), creations := s.creations + 1),
              r, Returned(Some(mustChange)))
    case Finishing(answer) => Release(s, r, Returned(Some(answer)))
  }

  // ---- The password file agrees with the database ----

  predicate MustChange(s: State) {
    ADMIN in s.users && s.users[ADMIN].mustChange
  }

  // An existing file for a pending password change holds the password that works.
  predicate Agreed(s: State) {
    s.file.Some? && MustChange(s) ==> s.file.value == s.users[ADMIN].password
  }

  // The file may be ahead of the database, under the lock.
  predicate Ahead(p: Phase) {
    p.Rewritten? || (p.Created? && p.mustChange)
  }

  predicate FilePhase(s: State, p: Phase) {
    && (p.Rewriting? ==> s.file == None)
    && (Ahead(p) ==> s.file == None || s.file == Some(p.password))
  }

  ghost predicate Serialised(s: State) {
    forall r: nat :: Critical(PhaseOf(s, r)) <==> s.holder == Some(r)
  }

  function HolderPhase(s: State): Phase {
    if s.holder.Some? then PhaseOf(s, s.holder.value) else Idle
  }

  ghost predicate Inv(s: State) {
    && Serialised(s)
    && FilePhase(s, HolderPhase(s))
    && (Ahead(HolderPhase(s)) || Agreed(s))
  }

  // The steps that break the agreement, by what can be seen before them.
  predicate Disturbs(s: State, e: Event)
    requires Enabled(s, e)
  {
    match e
    case Abort(r) =>
      && Ahead(PhaseOf(s, r)) && s.file.Some? && MustChange(s)
      && PhaseOf(s, r).password != s.users[ADMIN].password
    case Write(r, Torn(content)) => MustChange(s) && content != s.users[ADMIN].password
    case Commit(r) =>
      && PhaseOf(s, r).Relocking? && s.file.Some? && ADMIN in s.users
      && s.file.value != s.users[ADMIN].password
    case ResetPassword(who, password) =>
      who == ADMIN && s.file.Some? && !Ahead(HolderPhase(s)) && s.file.value != password
    case ForceChange(who) =>
      who == ADMIN && s.file.Some? && !Ahead(HolderPhase(s)) && s.file.value != s.users[ADMIN].password
    case _ => false
  }

  lemma {:induction false} StepSerialised(s: State, e: Event)
    requires Serialised(s) && Enabled(s, e)
    ensures Serialised(Step(s, e))
  {
  }

  lemma {:induction false} AgreementIff(s: State, e: Event)
    requires Inv(s) && Enabled(s, e)
    ensures Inv(Step(s, e)) <==> !Disturbs(s, e)
  {
    StepSerialised(s, e);
  }

  predicate Possible(s: State, events: seq<Event>)
    decreases |events|
  {
    events == [] || (Enabled(s, events[0]) && Possible(Step(s, events[0]), events[1..]))
  }

  function Run(s: State, events: seq<Event>): State
    requires Possible(s, events)
    decreases |events|
  {
    if events == [] then s else Run(Step(s, events[0]), events[1..])
  }

  predicate Calm(s: State, events: seq<Event>)
    requires Possible(s, events)
    decreases |events|
  {
    events == [] || (!Disturbs(s, events[0]) && Calm(Step(s, events[0]), events[1..]))
  }

  lemma {:induction false} CalmRunsAgree(s: State, events: seq<Event>)
    requires Inv(s) && Possible(s, events) && Calm(s, events)
    ensures Inv(Run(s, events))
    ensures Run(s, events).holder == None ==> Agreed(Run(s, events))
    decreases |events|
  {
    hide Step, Disturbs, Enabled, Serialised;
    if events != [] {
      AgreementIff(s, events[0]);
      CalmRunsAgree(Step(s, events[0]), events[1..]);
    }
  }

  // ---- The same from what an operator can promise ----

  // No start with an insecure ADMIN_PASSWORD, no administrative reset of the built-in
  // user, and no crash or torn write while its password is regenerated.
  predicate Careful(s: State, e: Event) {
    match e
    case Start(_, env) => !Relocks(env)
    case Abort(r) => !PhaseOf(s, r).Rewritten?
    case Write(r, outcome) => PhaseOf(s, r).Rewriting? ==> !outcome.Torn?
    case ResetPassword(who, _) => who != ADMIN
    case ForceChange(who) => who != ADMIN
    case _ => true
  }

  predicate AllCareful(s: State, events: seq<Event>)
    requires Possible(s, events)
    decreases |events|
  {
    events == [] || (Careful(s, events[0]) && AllCareful(Step(s, events[0]), events[1..]))
  }

  predicate CarefulPhase(s: State, p: Phase) {
    && !p.Relocking?
    && (p.Waiting? || p.Reading? ==> !Relocks(p.env))
    && (p.Creating? || p.Created? ==> ADMIN !in s.users)
  }

  predicate AdminIsAdmin(s: State) {
    ADMIN in s.users ==> s.users[ADMIN].isAdmin
  }

  ghost predicate CarefulInv(s: State) {
    && Serialised(s)
    && AdminIsAdmin(s)
    && forall r: nat :: CarefulPhase(s, PhaseOf(s, r))
  }

  lemma {:induction false} CarefulStep(s: State, e: Event)
    requires CarefulInv(s) && Enabled(s, e) && Careful(s, e)
    ensures CarefulInv(Step(s, e)) && !Disturbs(s, e)
  {
    StepSerialised(s, e);
    hide Serialised;
    var t := Step(s, e);
    forall r: nat
      ensures CarefulPhase(t, PhaseOf(t, r))
    {
      assert CarefulPhase(s, PhaseOf(s, r));
    }
  }

  lemma {:induction false} CarefulRunsAgree(s: State, events: seq<Event>)
    requires Inv(s) && CarefulInv(s) && Possible(s, events) && AllCareful(s, events)
    ensures Run(s, events).holder == None ==> Agreed(Run(s, events))
    decreases |events|
  {
    hide Step, Disturbs, Enabled, Careful, CarefulInv;
    if events != [] {
      CarefulStep(s, events[0]);
      AgreementIff(s, events[0]);
      CarefulRunsAgree(Step(s, events[0]), events[1..]);
    }
  }

  // ---- One create ----

  // With no row named admin that is not an administrator, a create found no
  // administrator at all, and leaves one.
  ghost predicate CreateInv(s: State, start: int) {
    && Serialised(s)
    && AdminIsAdmin(s)
    && (forall r: nat :: PhaseOf(s, r).Creating? || PhaseOf(s, r).Created? ==> ADMIN !in s.users)
    && s.creations == if ADMIN in s.users then start + 1 else start
  }

  lemma {:induction false} CreateStep(s: State, e: Event, start: int)
    requires CreateInv(s, start) && Enabled(s, e)
    ensures CreateInv(Step(s, e), start)
  {
    StepSerialised(s, e);
  }

  lemma {:induction false} CreateRun(s: State, events: seq<Event>, start: int)
    requires CreateInv(s, start) && Possible(s, events)
    ensures CreateInv(Run(s, events), start)
    decreases |events|
  {
    hide Step, Enabled;
    if events != [] {
      CreateStep(s, events[0], start);
      CreateRun(Step(s, events[0]), events[1..], start);
    }
  }

  // A database and a storage directory no replica has touched yet.
  function Fresh(users: map<string, User>, file: Option<string>): State {
    State(users, file, None, map[], 0)
  }

  lemma {:induction false} CreatedOnce(users: map<string, User>, file: Option<string>, events: seq<Event>)
    requires ADMIN in users ==> users[ADMIN].isAdmin
    requires Possible(Fresh(users, file), events)
    ensures var t := Run(Fresh(users, file), events);
            t.creations == if ADMIN !in users && ADMIN in t.users then 1 else 0
  {
    CreateRun(Fresh(users, file), events, if ADMIN in users then -1 else 0);
    AdminStays(Fresh(users, file), events);
  }

  lemma {:induction false} AdminStays(s: State, events: seq<Event>)
    requires Possible(s, events)
    ensures ADMIN in s.users ==> ADMIN in Run(s, events).users
    decreases |events|
  {
    if events != [] {
      AdminStays(Step(s, events[0]), events[1..]);
    }
  }

  // ---- What the server is told ----

  // No API call changes a user while a replica provisions.
  predicate Undisturbed(s: State, e: Event) {
    e.ChangePassword? || e.ResetPassword? || e.ForceChange? ==> s.holder == None
  }

  predicate SoleAdmin(s: State) {
    && AdminIsAdmin(s)
    && forall u | u in s.users && s.users[u].isAdmin :: u == ADMIN
  }

  predicate AnswerPhase(s: State, p: Phase) {
    match p
    case Checking => MustChange(s)
    case Rewriting(_) => MustChange(s)
    case Rewritten(_) => MustChange(s)
    case Relocking => ADMIN in s.users
    case Finishing(answer) => ADMIN in s.users && answer == MustChange(s)
    case _ => true
  }

  ghost predicate AnswerInv(s: State) {
    Serialised(s) && SoleAdmin(s) && AnswerPhase(s, HolderPhase(s))
  }

  lemma {:induction false} AnswerStep(s: State, e: Event)
    requires AnswerInv(s) && Enabled(s, e) && Undisturbed(s, e)
    ensures AnswerInv(Step(s, e))
    ensures e.Commit? ==> ADMIN in Step(s, e).users
                          && PhaseOf(Step(s, e), e.r) == Returned(Some(MustChange(Step(s, e))))
  {
    StepSerialised(s, e);
  }

  predicate AllUndisturbed(s: State, events: seq<Event>)
    requires Possible(s, events)
    decreases |events|
  {
    events == [] || (Undisturbed(s, events[0]) && AllUndisturbed(Step(s, events[0]), events[1..]))
  }

  // After any such run the next commit tells the truth.
  lemma {:induction false} AnswersAreTrue(s: State, events: seq<Event>, r: nat)
    requires AnswerInv(s) && Possible(s, events) && AllUndisturbed(s, events)
    ensures var t := Run(s, events);
            && AnswerInv(t)
            && (Enabled(t, Commit(r)) ==>
                  PhaseOf(Step(t, Commit(r)), r) == Returned(Some(MustChange(Step(t, Commit(r))))))
    decreases |events|
  {
    hide Step, Enabled, Undisturbed, AnswerInv, PhaseOf, MustChange;
    if events != [] {
      AnswerStep(s, events[0]);
      AnswersAreTrue(Step(s, events[0]), events[1..], r);
    } else if Enabled(s, Commit(r)) {
      assert Undisturbed(s, Commit(r)) by { CommitUndisturbed(s, r); }
      AnswerStep(s, Commit(r));
    }
  }

  lemma {:induction false} CommitUndisturbed(s: State, r: nat)
    ensures Undisturbed(s, Commit(r))
  {
  }

  // ---- Runs that break the promises ----

  lemma {:induction false} Extend(s: State, events: seq<Event>, e: Event) returns (more: seq<Event>)
    requires Possible(s, events) && Enabled(Run(s, events), e)
    ensures more == events + [e]
    ensures Possible(s, more) && Run(s, more) == Step(Run(s, events), e)
    decreases |events|
  {
    hide Step, Enabled;
    more := events + [e];
    if events == [] {
      assert more[1..] == [];
    } else {
      assert more[1..] == events[1..] + [e];
      var _ := Extend(Step(s, events[0]), events[1..], e);
    }
  }

  const PLAIN := Env(false, false, None)

  function RegenerateCrash(generated: string): seq<Event> {
    [Start(0, PLAIN), TakeLock(0), Read(0, Some(ADMIN), ""), CheckFile(0, generated), Write(0, Complete), Abort(0)]
  }

  // A crash between writing the new password and committing its hash.
  lemma {:induction false} RegenerateWindow(stored: string, generated: string)
    requires stored != generated
    ensures var s := Fresh(map[ADMIN := User(stored, true, true)], None);
            && Possible(s, RegenerateCrash(generated))
            && Run(s, RegenerateCrash(generated)).holder == None
            && !Agreed(Run(s, RegenerateCrash(generated)))
  {
    var s := Fresh(map[ADMIN := User(stored, true, true)], None);
    var es := [];
    assert Possible(s, es) && Run(s, es) == s;
    hide Run, Possible;
    es := Extend(s, es, Start(0, PLAIN));
    es := Extend(s, es, TakeLock(0));
    es := Extend(s, es, Read(0, Some(ADMIN), ""));
    es := Extend(s, es, CheckFile(0, generated));
    es := Extend(s, es, Write(0, Complete));
    es := Extend(s, es, Abort(0));
    assert es == RegenerateCrash(generated);
  }

  function ChangeInBetween(mine: string, generated: string): seq<Event> {
    [Start(0, PLAIN), TakeLock(0), Read(0, Some(ADMIN), ""), CheckFile(0, generated),
     ChangePassword(ADMIN, mine), Write(0, Complete), Commit(0)]
  }

  // A password change while a replica regenerates: the commit replaces the password
  // just chosen, and the server is told to stay locked for a user that is settled.
  lemma {:induction false} LostChange(stored: string, mine: string, generated: string)
    ensures var s := Fresh(map[ADMIN := User(stored, true, true)], None);
            var es := ChangeInBetween(mine, generated);
            && Possible(s, es)
            && Run(s, es).users == map[ADMIN := User(generated, false, true)]
            && PhaseOf(Run(s, es), 0) == Returned(Some(true))
  {
    var s := Fresh(map[ADMIN := User(stored, true, true)], None);
    var es := [];
    assert Possible(s, es) && Run(s, es) == s;
    hide Run, Possible;
    es := Extend(s, es, Start(0, PLAIN));
    es := Extend(s, es, TakeLock(0));
    es := Extend(s, es, Read(0, Some(ADMIN), ""));
    es := Extend(s, es, CheckFile(0, generated));
    es := Extend(s, es, ChangePassword(ADMIN, mine));
    es := Extend(s, es, Write(0, Complete));
    es := Extend(s, es, Commit(0));
    assert es == ChangeInBetween(mine, generated);
  }

  function CreateWith(env: Env): seq<Event> {
    [Start(0, env), TakeLock(0), Read(0, None, ""), Commit(0)]
  }

  lemma {:induction false} CreatesChosen(s: State, chosen: string)
    requires s.holder == None && (PhaseOf(s, 0).Idle? || PhaseOf(s, 0).Returned?)
    requires forall u | u in s.users :: !s.users[u].isAdmin
    requires chosen != "" && !Insecure(chosen)
    ensures var es := CreateWith(Env(false, false, Some(chosen)));
            && Possible(s, es)
            && Run(s, es) == State(Upserted(s.users, chosen, false), s.file, None,
                                   s.phases[0 := Returned(Some(false))], s.creations + 1)
  {
    var env := Env(false, false, Some(chosen));
    var es := [];
    assert Possible(s, es) && Run(s, es) == s;
    hide Run, Possible, Insecure;
    es := Extend(s, es, Start(0, env));
    es := Extend(s, es, TakeLock(0));
    es := Extend(s, es, Read(0, None, ""));
    es := Extend(s, es, Commit(0));
    assert es == CreateWith(env);
  }

  // A row named admin without is_admin is not promoted by the conflict clause, so
  // the next start finds no administrator either, and resets the password again.
  lemma {:induction false} CreatesAgain(s: State, chosen: string)
    requires s.holder == None && (PhaseOf(s, 0).Idle? || PhaseOf(s, 0).Returned?)
    requires ADMIN in s.users && forall u | u in s.users :: !s.users[u].isAdmin
    requires chosen != "" && !Insecure(chosen)
    ensures var es := CreateWith(Env(false, false, Some(chosen)));
            && Possible(s, es)
            && Run(s, es).creations == s.creations + 1
            && Run(s, es).users == s.users[ADMIN := User(chosen, false, false)]
            && Run(s, es).holder == None && PhaseOf(Run(s, es), 0).Returned?
  {
    CreatesChosen(s, chosen);
    hide Run, Possible, Insecure;
  }

  function CrashedCreate(lost: string): seq<Event> {
    [Start(0, PLAIN), TakeLock(0), Read(0, None, lost), Write(0, Complete), Abort(0)]
  }

  function NextStart(env: Env): seq<Event> {
    [Start(0, env), TakeLock(0), Read(0, Some(ADMIN), ""), Commit(0)]
  }

  // A crash after the file of a create is written.
  lemma {:induction false} CreateCrashes(lost: string)
    ensures var s := Fresh(map[], None);
            && Possible(s, CrashedCreate(lost))
            && Run(s, CrashedCreate(lost)) == State(map[], Some(lost), None, map[0 := Idle], 0)
  {
    var s := Fresh(map[], None);
    var es := [];
    assert Possible(s, es) && Run(s, es) == s;
    hide Run, Possible;
    es := Extend(s, es, Start(0, PLAIN));
    es := Extend(s, es, TakeLock(0));
    es := Extend(s, es, Read(0, None, lost));
    es := Extend(s, es, Write(0, Complete));
    es := Extend(s, es, Abort(0));
    assert es == CrashedCreate(lost);
  }

  // A settled administrator meets an insecure ADMIN_PASSWORD: the file that is still
  // there is promised again, and agrees exactly when it holds the stored password.
  lemma {:induction false} RelockIff(s: State, env: Env)
    requires s.holder == None && (PhaseOf(s, 0).Idle? || PhaseOf(s, 0).Returned?)
    requires ADMIN in s.users && s.users[ADMIN].isAdmin && !s.users[ADMIN].mustChange
    requires !env.skip && Relocks(env)
    ensures Possible(s, NextStart(env)) && Run(s, NextStart(env)).holder == None
    ensures Agreed(Run(s, NextStart(env)))
            <==> s.file == None || s.file == Some(s.users[ADMIN].password)
  {
    var es := [];
    assert Possible(s, es) && Run(s, es) == s;
    hide Run, Possible, Insecure;
    es := Extend(s, es, Start(0, env));
    es := Extend(s, es, TakeLock(0));
    es := Extend(s, es, Read(0, Some(ADMIN), ""));
    es := Extend(s, es, Commit(0));
    assert es == NextStart(env);
  }

  lemma {:induction false} RunSplit(s: State, first: seq<Event>, second: seq<Event>)
    requires Possible(s, first) && Possible(Run(s, first), second)
    ensures Possible(s, first + second) && Run(s, first + second) == Run(Run(s, first), second)
    decreases |first|
  {
    hide Step, Enabled;
    if first == [] {
      assert first + second == second;
    } else {
      assert (first + second)[1..] == first[1..] + second;
      RunSplit(Step(s, first[0]), first[1..], second);
    }
  }

  // The file of a create that crashed outlives a create with a chosen password, until
  // an insecure ADMIN_PASSWORD asks for a change again.
  lemma {:induction false} RelockWindow(lost: string, chosen: string, insecure: Env)
    requires lost != chosen && chosen != "" && !Insecure(chosen)
    requires !insecure.skip && Relocks(insecure)
    ensures var s := Fresh(map[], None);
            var es := CrashedCreate(lost) + CreateWith(Env(false, false, Some(chosen))) + NextStart(insecure);
            && Possible(s, es)
            && Run(s, es).holder == None
            && !Agreed(Run(s, es))
  {
    var s := Fresh(map[], None);
    var es := CrashedCreate(lost);
    CreateCrashes(lost);
    CreatesChosen(Run(s, es), chosen);
    hide Run, Possible, Insecure, Relocks, CrashedCreate, CreateWith, NextStart;
    var more := es + CreateWith(Env(false, false, Some(chosen)));
    RunSplit(s, es, CreateWith(Env(false, false, Some(chosen))));
    RelockIff(Run(s, more), insecure);
    RunSplit(s, more, NextStart(insecure));
  }

  // ---- One replica that is not interrupted ----

  predicate OwnStep(e: Event, r: nat) {
    match e
    case Start(q, _) => q == r
    case TakeLock(q) => q == r
    case Read(q, _, _) => q == r
    case CheckFile(q, _) => q == r
    case Write(q, _) => q == r
    case Commit(q) => q == r
    case _ => false
  }

  ghost predicate Reached(s: State, events: seq<Event>, r: nat, t: State) {
    && Possible(s, events) && Run(s, events) == t
    && forall k | 0 <= k < |events| :: OwnStep(events[k], r)
  }

  lemma {:induction false} ReachOn(s: State, events: seq<Event>, r: nat, t: State, e: Event)
    returns (more: seq<Event>, u: State)
    requires Reached(s, events, r, t) && Enabled(t, e) && OwnStep(e, r)
    ensures u == Step(t, e) && Reached(s, more, r, u)
  {
    more := Extend(s, events, e);
    u := Step(t, e);
  }

  lemma {:induction false} CreateRead(t: State, r: nat, env: Env, generated: string)
    requires PhaseOf(t, r) == Reading(env) && forall u | u in t.users :: !t.users[u].isAdmin
    ensures Enabled(t, Read(r, None, generated))
    ensures var (password, mustChange) := FirstPassword(env, generated);
            Step(t, Read(r, None, generated)) ==
            At(t, r, if mustChange then Creating(password) else Created(password, false))
  {
  }

  lemma {:induction false} CreateWrite(t: State, r: nat, password: string, outcome: Outcome)
    requires PhaseOf(t, r) == Creating(password) && t.holder == Some(r)
    ensures Enabled(t, Write(r, outcome))
    ensures Step(t, Write(r, outcome)) ==
            match outcome
            case Complete => At(t, r, Created(password, true)).(file := Some(password))
            case Untouched => At(t, r, Returned(None)).(holder := None)
            case Torn(content) => At(t, r, Returned(None)).(holder := None, file := Some(content))
  {
  }

  lemma {:induction false} CreateCommit(t: State, r: nat, password: string, mustChange: bool)
    requires PhaseOf(t, r) == Created(password, mustChange) && t.holder == Some(r)
    ensures Enabled(t, Commit(r))
    ensures Step(t, Commit(r)) ==
            At(t, r, Returned(Some(mustChange)))
              .(users := Upserted(t.users, password, mustChange), creations := t.creations + 1, holder := None)
  {
  }

  lemma {:induction false} KeepRead(t: State, r: nat, env: Env, who: string, generated: string)
    requires PhaseOf(t, r) == Reading(env) && who in t.users && t.users[who].isAdmin
    ensures Enabled(t, Read(r, Some(who), generated))
    ensures Step(t, Read(r, Some(who), generated)) ==
            At(t, r, if t.users[who].mustChange then Checking else if Relocks(env) then Relocking else Finishing(false))
  {
    hide Insecure;
  }

  lemma {:induction false} KeepCheck(t: State, r: nat, generated: string)
    requires PhaseOf(t, r) == Checking
    ensures Enabled(t, CheckFile(r, generated))
    ensures Step(t, CheckFile(r, generated)) == At(t, r, if t.file.Some? then Finishing(true) else Rewriting(generated))
  {
  }

  lemma {:induction false} KeepWrite(t: State, r: nat, password: string, outcome: Outcome)
    requires PhaseOf(t, r) == Rewriting(password)
    ensures Enabled(t, Write(r, outcome))
    ensures Step(t, Write(r, outcome)) ==
            match outcome
            case Complete => At(t, r, Rewritten(password)).(file := Some(password))
            case Untouched => At(t, r, Finishing(true))
            case Torn(content) => At(t, r, Finishing(true)).(file := Some(content))
  {
  }

  lemma {:induction false} KeepCommit(t: State, r: nat)
    requires t.holder == Some(r)
    requires PhaseOf(t, r).Rewritten? || PhaseOf(t, r).Relocking? || PhaseOf(t, r).Finishing?
    ensures Enabled(t, Commit(r))
    ensures var p := PhaseOf(t, r);
            Step(t, Commit(r)) ==
            At(t, r, Returned(Some(if p.Finishing? then p.answer else true)))
              .(holder := None,
                users := if p.Rewritten? then Rehashed(t.users, p.password)
                         else if p.Relocking? then Forced(t.users, ADMIN)
                         else t.users)
  {
  }

  // ---- What one start does, told from outside ----

  predicate Chosen(env: Env) {
    env.adminPassword.Some? && env.adminPassword.value != ""
  }

  // A first start: the operator's password if there is one, else a random one; to be
  // changed if random or, outside demo mode, insecure; and then in the file, or nothing.
  predicate FirstStart(env: Env, generated: string, outcome: Outcome, users: map<string, User>, file: Option<string>,
                       users': map<string, User>, file': Option<string>, result: Option<bool>) {
    var password := if Chosen(env) then env.adminPassword.value else generated;
    var mustChange := !Chosen(env) || (Insecure(env.adminPassword.value) && !env.demo);
    if mustChange && !outcome.Complete? then
      result == None && users' == users && file' == (if outcome.Torn? then Some(outcome.content) else file)
    else
      && result == Some(mustChange)
      && users' == users[ADMIN := User(password, mustChange, if ADMIN in users then users[ADMIN].isAdmin else true)]
      && file' == if mustChange then Some(password) else file
  }

  // A later start: it asks for a change again if the environment is insecure, and it
  // replaces a password still to be changed if its file is gone and can be written.
  predicate LaterStart(env: Env, who: string, generated: string, outcome: Outcome, users: map<string, User>,
                       file: Option<string>, users': map<string, User>, file': Option<string>, result: Option<bool>)
    requires who in users
  {
    var insecure := !env.demo && env.adminPassword.Some? && Insecure(env.adminPassword.value);
    var lost := users[who].mustChange && file.None?;
    && result == Some(users[who].mustChange || insecure)
    && users'.Keys == users.Keys
    && (forall u | u in users && u != ADMIN :: users'[u] == users[u])
    && (ADMIN in users ==>
         && users'[ADMIN].isAdmin == users[ADMIN].isAdmin
         && users'[ADMIN].mustChange == (users[ADMIN].mustChange || (insecure && !users[who].mustChange))
         && users'[ADMIN].password == if lost && outcome.Complete? then generated else users[ADMIN].password)
    && file' == (if !lost || outcome.Untouched? then file
                 else if outcome.Torn? then Some(outcome.content) else Some(generated))
  }

  lemma {:induction false} FirstStartIs(env: Env, generated: string, outcome: Outcome, users: map<string, User>,
                                        file: Option<string>, password: string, mustChange: bool)
    requires (password, mustChange) ==
             if env.adminPassword.Some? && env.adminPassword.value != ""
             then (env.adminPassword.value, Insecure(env.adminPassword.value) && !env.demo)
             else (generated, true)
    ensures mustChange && !outcome.Complete? ==>
              FirstStart(env, generated, outcome, users, file, users,
                         if outcome.Torn? then Some(outcome.content) else file, None)
    ensures !mustChange || outcome.Complete? ==>
              FirstStart(env, generated, outcome, users, file, Upserted(users, password, mustChange),
                         if mustChange then Some(password) else file, Some(mustChange))
  {
    hide Insecure;
  }

  lemma {:induction false} LaterStartIs(env: Env, who: string, generated: string, outcome: Outcome,
                                        users: map<string, User>, file: Option<string>)
    requires who in users
    ensures !users[who].mustChange && Relocks(env) ==>
              LaterStart(env, who, generated, outcome, users, file, Forced(users, ADMIN), file, Some(true))
    ensures (if users[who].mustChange then file.Some? else !Relocks(env)) ==>
              LaterStart(env, who, generated, outcome, users, file, users, file, Some(users[who].mustChange))
    ensures users[who].mustChange && file.None? ==>
              match outcome
              case Complete =>
                LaterStart(env, who, generated, outcome, users, file, Rehashed(users, generated), Some(generated), Some(true))
              case Untouched => LaterStart(env, who, generated, outcome, users, file, users, file, Some(true))
              case Torn(content) => LaterStart(env, who, generated, outcome, users, file, users, Some(content), Some(true))
  {
    hide Insecure;
  }

  // The ten passwords that count as insecure, in any mixture of cases.
  lemma {:induction false} InsecureIff(password: string)
    ensures Insecure(password) <==>
            || Lower(password) == "admin" || Lower(password) == "password" || Lower(password) == "changeme"
            || Lower(password) == "admin123" || Lower(password) == "password1" || Lower(password) == "letmein"
            || Lower(password) == "welcome" || Lower(password) == "123456" || Lower(password) == "admin1234"
            || Lower(password) == "default"
  {
    assert Lower("admin") == "admin" && Lower("password") == "password" && Lower("changeme") == "changeme";
    assert Lower("admin123") == "admin123" && Lower("Password1") == "password1" && Lower("letmein") == "letmein";
    assert Lower("welcome") == "welcome" && Lower("123456") == "123456" && Lower("admin1234") == "admin1234";
    assert Lower("default") == "default";
    hide Lower;
    var list := INSECURE_DEFAULTS;
    assert list[0] == "admin" && list[1] == "password" && list[2] == "changeme" && list[3] == "admin123";
    assert list[4] == "Password1" && list[5] == "letmein" && list[6] == "welcome" && list[7] == "123456";
    assert list[8] == "admin1234" && list[9] == "default";
  }

  // What all replicas share, and the call that changes it. The ghost fields are the
  // part of the state that lives in the lock and in the running calls.
  class Deployment {
    var users: map<string, User>
    var file: Option<string>
    ghost var holder: Option<nat>
    ghost var phases: map<nat, Phase>
    ghost var creations: nat

    ghost function Now(): State
      reads this
    {
      State(users, file, holder, phases, creations)
    }

    // `found` is the administrator row the query returned, `generated` the random
    // password, `outcome` how a write of the file ends. The events say that the call
    // is one of the runs the steps above allow.
    method ProvisionAdminUser(r: nat, env: Env, found: Option<string>, generated: string, outcome: Outcome)
      returns (result: Option<bool>, ghost events: seq<Event>)
      requires holder == None && (PhaseOf(Now(), r).Idle? || PhaseOf(Now(), r).Returned?)
      requires match found
               case Some(who) => who in users && users[who].isAdmin
               case None => forall u | u in users :: !users[u].isAdmin
      modifies this
      ensures Reached(old(Now()), events, r, Now())
      ensures holder == None && PhaseOf(Now(), r) == Returned(result)
      ensures env.skip ==> result == Some(false) && users == old(users) && file == old(file)
      ensures !env.skip && found.Some? ==>
                LaterStart(env, found.value, generated, outcome, old(users), old(file), users, file, result)
      ensures !env.skip && found.None? ==>
                FirstStart(env, generated, outcome, old(users), old(file), users, file, result)
    {
      ghost var s, t := Now(), Now();
      events := [];
      assert Reached(s, events, r, s);
      hide Reached, Insecure, FirstStart, LaterStart;
      events, t := ReachOn(s, events, r, t, Start(r, env));
      if env.skip {
        result := Some(false);
        phases := phases[r := Returned(result)];
        return;
      }
      events, t := ReachOn(s, events, r, t, TakeLock(r));
      holder, phases := Some(r), phases[r := Reading(env)];
      if found.Some? {
        result, events := KeepAdmin(s, events, r, env, found.value, generated, outcome);
      } else {
        result, events := CreateAdmin(s, events, r, env, generated, outcome);
      }
    }

    method KeepAdmin(ghost s: State, ghost before: seq<Event>, r: nat, env: Env,
                     who: string, generated: string, outcome: Outcome)
      returns (result: Option<bool>, ghost events: seq<Event>)
      requires Reached(s, before, r, Now())
      requires holder == Some(r) && PhaseOf(Now(), r) == Reading(env)
      requires who in users && users[who].isAdmin
      modifies this
      ensures Reached(s, events, r, Now())
      ensures holder == None && PhaseOf(Now(), r) == Returned(result)
      ensures LaterStart(env, who, generated, outcome, old(users), old(file), users, file, result)
    {
      LaterStartIs(env, who, generated, outcome, users, file);
      hide Reached, Insecure, LaterStart, Step, Enabled;
      ghost var t := Now();
      KeepRead(t, r, env, who, generated);
      events, t := ReachOn(s, before, r, t, Read(r, Some(who), generated));
      var mustChange := users[who].mustChange;
      if !mustChange && !env.demo && env.adminPassword.Some? && Insecure(env.adminPassword.value) {
        if ADMIN in users {
          users := users[ADMIN := users[ADMIN].(mustChange := true)];
        }
        result := Some(true);
      } else {
        if mustChange {
          KeepCheck(t, r, generated);
          events, t := ReachOn(s, events, r, t, CheckFile(r, generated));
          if file.None? {
            KeepWrite(t, r, generated, outcome);
            events, t := ReachOn(s, events, r, t, Write(r, outcome));
            if outcome.Torn? {
              file := Some(outcome.content);
            } else if outcome.Complete? {
              file := Some(generated);
              if ADMIN in users {
                users := users[ADMIN := users[ADMIN].(password := generated)];
              }
            }
          }
        }
        result := Some(mustChange);
      }
      KeepCommit(t, r);
      events, t := ReachOn(s, events, r, t, Commit(r));
      holder, phases, creations := t.holder, t.phases, t.creations;
    }

    method CreateAdmin(ghost s: State, ghost before: seq<Event>, r: nat, env: Env,
                       generated: string, outcome: Outcome)
      returns (result: Option<bool>, ghost events: seq<Event>)
      requires Reached(s, before, r, Now())
      requires holder == Some(r) && PhaseOf(Now(), r) == Reading(env)
      requires forall u | u in users :: !users[u].isAdmin
      modifies this
      ensures Reached(s, events, r, Now())
      ensures holder == None && PhaseOf(Now(), r) == Returned(result)
      ensures FirstStart(env, generated, outcome, old(users), old(file), users, file, result)
    {
      hide Reached, Insecure, Step, Enabled, FirstStart;
      ghost var t := Now();
      var password, mustChange := generated, true;
      if env.adminPassword.Some? && env.adminPassword.value != "" {
        password, mustChange := env.adminPassword.value, Insecure(env.adminPassword.value) && !env.demo;
      }
      FirstStartIs(env, generated, outcome, users, file, password, mustChange);
      assert FirstPassword(env, generated) == (password, mustChange);
      CreateRead(t, r, env, generated);
      hide FirstPassword;
      events, t := ReachOn(s, before, r, t, Read(r, None, generated));
      if mustChange {
        CreateWrite(t, r, password, outcome);
        events, t := ReachOn(s, events, r, t, Write(r, outcome));
        if outcome.Torn? {
          file := Some(outcome.content);
        } else if outcome.Complete? {
          file := Some(password);
        }
        if !outcome.Complete? {
          result := None;
          holder, phases, creations := t.holder, t.phases, t.creations;
          return;
        }
      }
      CreateCommit(t, r, password, mustChange);
      users := users[ADMIN := User(password, mustChange, if ADMIN in users then users[ADMIN].isAdmin else true)];
      result := Some(mustChange);
      events, t := ReachOn(s, events, r, t, Commit(r));
      holder, phases, creations := t.holder, t.phases, t.creations;
    }
  }
}
