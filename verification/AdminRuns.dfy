// Exact conditions for what provisioning promises: when a chosen password survives,
// when the answer is true, and when there is one create at most.
module AdminRuns {
  import opened Text
  import opened Admin

  // The steps of API calls that change a user.
  predicate Api(e: Event) {
    e.ChangePassword? || e.ResetPassword? || e.ForceChange?
  }

  predicate Administrator(s: State, u: string) {
    u in s.users && s.users[u].isAdmin
  }

  ghost predicate SomeAdministrator(s: State) {
    exists u :: Administrator(s, u)
  }

  predicate Creates(p: Phase) {
    p.Creating? || p.Created?
  }

  // A create has found no administrator, and none appears before it commits.
  ghost predicate CreateAlone(s: State) {
    Serialised(s) && forall r: nat :: Creates(PhaseOf(s, r)) ==> !SomeAdministrator(s)
  }

  // Steps keep administrators, and only a committed create adds one.
  lemma {:induction false} AdministratorsStay(s: State, e: Event, u: string)
    requires Enabled(s, e)
    ensures Administrator(s, u) ==> Administrator(Step(s, e), u)
    ensures Administrator(Step(s, e), u) ==> Administrator(s, u) || (e.Commit? && PhaseOf(s, e.r).Created?)
  {
  }

  lemma {:induction false} CreatesAfter(s: State, e: Event, r: nat)
    requires Enabled(s, e) && Creates(PhaseOf(Step(s, e), r))
    ensures Creates(PhaseOf(s, r)) || (e.Read? && e.found == None && e.r == r)
  {
  }

  lemma {:induction false} StepCreateAlone(s: State, e: Event)
    requires CreateAlone(s) && Enabled(s, e)
    ensures CreateAlone(Step(s, e))
  {
    var t := Step(s, e);
    StepSerialised(s, e);
    forall r: nat | Creates(PhaseOf(t, r))
      ensures !SomeAdministrator(t)
    {
      CreatesAfter(s, e, r);
      if e.Commit? {
        CommitLeavesNone(s, e, r);
      }
      forall u
        ensures !Administrator(t, u)
      {
        AdministratorsStay(s, e, u);
      }
    }
  }

  // Who commits held the lock, and nobody is creating behind it.
  lemma {:induction false} CommitLeavesNone(s: State, e: Event, r: nat)
    requires Serialised(s) && Enabled(s, e) && e.Commit?
    ensures !Creates(PhaseOf(Step(s, e), r))
  {
    assert Critical(PhaseOf(s, e.r)) && (Critical(PhaseOf(s, r)) ==> r == e.r);
  }

  lemma {:induction false} RunCreateAlone(s: State, events: seq<Event>)
    requires CreateAlone(s) && Possible(s, events)
    ensures CreateAlone(Run(s, events))
    decreases |events|
  {
    hide Step, Enabled, CreateAlone;
    if events != [] {
      StepCreateAlone(s, events[0]);
      RunCreateAlone(Step(s, events[0]), events[1..]);
    }
  }

  // ---- One create at most ----

  // While there is an administrator nobody creates.
  lemma {:induction false} NoCreateStep(s: State, e: Event)
    requires CreateAlone(s) && SomeAdministrator(s) && Enabled(s, e)
    ensures SomeAdministrator(Step(s, e)) && Step(s, e).creations == s.creations
  {
    var u :| Administrator(s, u);
    AdministratorsStay(s, e, u);
    if e.Commit? {
      assert !Creates(PhaseOf(s, e.r));
    }
  }

  lemma {:induction false} NoCreates(s: State, events: seq<Event>)
    requires CreateAlone(s) && SomeAdministrator(s) && Possible(s, events)
    ensures Run(s, events).creations == s.creations
    decreases |events|
  {
    hide Step, Enabled, CreateAlone, SomeAdministrator;
    if events != [] {
      NoCreateStep(s, events[0]);
      StepCreateAlone(s, events[0]);
      NoCreates(Step(s, events[0]), events[1..]);
    }
  }

  // What can be seen in the users table before the first start.
  ghost predicate CreatesOnce(users: map<string, User>) {
    ADMIN !in users || exists u :: u in users && users[u].isAdmin
  }

  lemma {:induction false} ShortIsSecure(p: string)
    requires |p| < 5
    ensures !Insecure(p)
  {
    forall k | 0 <= k < |INSECURE_DEFAULTS|
      ensures Lower(INSECURE_DEFAULTS[k]) != Lower(p)
    {
      assert |INSECURE_DEFAULTS[k]| >= 5;
      assert |Lower(INSECURE_DEFAULTS[k])| == |INSECURE_DEFAULTS[k]| && |Lower(p)| == |p|;
    }
  }

  // Every run commits one create at most, exactly when the table has no row named
  // admin, or has an administrator, under that or another name.
  lemma {:induction false} CreatedOnceIff(users: map<string, User>, file: Option<string>)
    ensures (forall events | Possible(Fresh(users, file), events) :: Run(Fresh(users, file), events).creations <= 1)
            <==> CreatesOnce(users)
  {
    var s := Fresh(users, file);
    if CreatesOnce(users) {
      forall events | Possible(s, events)
        ensures Run(s, events).creations <= 1
      {
        if ADMIN !in users {
          CreatedOnce(users, file, events);
        } else {
          var u :| u in users && users[u].isAdmin;
          assert Administrator(s, u);
          NoCreates(s, events);
        }
      }
    } else {
      var events := CreateTwice(s);
    }
  }

  lemma {:induction false} CreateTwice(s: State) returns (events: seq<Event>)
    requires s.holder == None && PhaseOf(s, 0).Idle? && ADMIN in s.users
    requires forall u | u in s.users :: !s.users[u].isAdmin
    ensures Possible(s, events) && Run(s, events).creations == s.creations + 2
  {
    var es := CreateWith(Env(false, false, Some("x")));
    ShortIsSecure("x");
    hide Insecure, CreateWith, Run, Possible;
    CreatesAgain(s, "x");
    CreatesAgain(Run(s, es), "x");
    RunSplit(s, es, es);
    events := es + es;
  }

  // ---- A chosen password ----

  predicate Settled(s: State) {
    ADMIN in s.users && !s.users[ADMIN].mustChange
  }

  // Provisioning changes the password exactly by committing another one.
  lemma {:induction false} PasswordChangesIff(s: State, e: Event)
    requires Enabled(s, e) && ADMIN in s.users && !Api(e)
    ensures ADMIN in Step(s, e).users
    ensures Step(s, e).users[ADMIN].password != s.users[ADMIN].password <==>
            && e.Commit? && (PhaseOf(s, e.r).Rewritten? || PhaseOf(s, e.r).Created?)
            && PhaseOf(s, e.r).password != s.users[ADMIN].password
  {
  }

  // Where no user is changed while a replica provisions, a settled password stays
  // through every step that is not an API call, at any point of any run.
  lemma {:induction false} UndisturbedKeepsPassword(s: State, start: int, events: seq<Event>, e: Event)
    requires AnswerInv(s) && CreateInv(s, start) && Possible(s, events) && AllUndisturbed(s, events)
    requires Settled(Run(s, events)) && Enabled(Run(s, events), e) && !Api(e)
    ensures ADMIN in Step(Run(s, events), e).users
    ensures Step(Run(s, events), e).users[ADMIN].password == Run(s, events).users[ADMIN].password
  {
    AnswersAreTrue(s, events, 0);
    CreateRun(s, events, start);
    hide Run, Possible, AllUndisturbed;
    PasswordChangesIff(Run(s, events), e);
    if e.Commit? {
      assert Critical(PhaseOf(Run(s, events), e.r));
    }
  }

  // No start waits that would put a settled administrator back into must-change.
  ghost predicate NoRelock(s: State) {
    forall r: nat :: !PhaseOf(s, r).Relocking?
                     && (PhaseOf(s, r).Waiting? || PhaseOf(s, r).Reading? ==> !Relocks(PhaseOf(s, r).env))
  }

  // Starts, crashes and file operations: all steps but API calls and such starts.
  predicate Own(e: Event) {
    !Api(e) && (e.Start? ==> !Relocks(e.env))
  }

  predicate AllOwn(events: seq<Event>) {
    forall k | 0 <= k < |events| :: Own(events[k])
  }

  ghost predicate Waits(s: State) {
    CreateAlone(s) && NoRelock(s)
  }

  lemma {:induction false} StepWaits(s: State, e: Event)
    requires Waits(s) && Enabled(s, e) && (e.Start? ==> !Relocks(e.env))
    ensures Waits(Step(s, e))
  {
    StepCreateAlone(s, e);
    hide CreateAlone;
  }

  // What endangers a settled password: nobody is an administrator, so that the next
  // start creates one; an administrator, under whatever name, must change, so that a
  // start regenerates; or a regeneration is under way already.
  ghost predicate Threatened(s: State)
    requires ADMIN in s.users
  {
    || !SomeAdministrator(s)
    || (exists u :: Administrator(s, u) && s.users[u].mustChange)
    || HolderPhase(s).Checking?
    || ((HolderPhase(s).Rewriting? || HolderPhase(s).Rewritten?) && HolderPhase(s).password != s.users[ADMIN].password)
  }

  ghost predicate Guarded(s: State, password: string) {
    && Waits(s) && Settled(s) && s.users[ADMIN].password == password && !Threatened(s)
  }

  lemma {:induction false} UsersKept(s: State, e: Event, u: string)
    requires Waits(s) && SomeAdministrator(s) && Enabled(s, e) && Own(e)
    ensures u in Step(s, e).users <==> u in s.users
    ensures u in s.users ==> Step(s, e).users[u].isAdmin == s.users[u].isAdmin
                             && Step(s, e).users[u].mustChange == s.users[u].mustChange
  {
    if e.Commit? {
      assert !Creates(PhaseOf(s, e.r)) && !PhaseOf(s, e.r).Relocking?;
    }
  }

  lemma {:induction false} PhaseGuarded(s: State, e: Event, password: string)
    requires Guarded(s, password) && Enabled(s, e) && Own(e)
    ensures var p := HolderPhase(Step(s, e));
            !p.Checking? && (p.Rewriting? || p.Rewritten? ==> p.password == password)
  {
    StepSerialised(s, e);
    if e.Read? && e.found.Some? {
      assert Administrator(s, e.found.value);
    }
  }

  lemma {:induction false} StepGuarded(s: State, e: Event, password: string)
    requires Guarded(s, password) && Enabled(s, e) && Own(e)
    ensures Guarded(Step(s, e), password)
  {
    StepWaits(s, e);
    PhaseGuarded(s, e, password);
    PasswordChangesIff(s, e);
    var t := Step(s, e);
    forall u
      ensures Administrator(t, u) <==> Administrator(s, u)
      ensures Administrator(s, u) ==> t.users[u].mustChange == s.users[u].mustChange
    {
      UsersKept(s, e, u);
    }
    UsersKept(s, e, ADMIN);
    if e.Commit? {
      CommitGuarded(s, e, password);
    }
    hide Step, Enabled, Waits;
  }

  lemma {:induction false} CommitGuarded(s: State, e: Event, password: string)
    requires Guarded(s, password) && Enabled(s, e) && e.Commit?
    ensures !PhaseOf(s, e.r).Created?
    ensures PhaseOf(s, e.r).Rewritten? ==> PhaseOf(s, e.r).password == password
  {
    assert Critical(PhaseOf(s, e.r));
  }

  lemma {:induction false} RunGuarded(s: State, events: seq<Event>, password: string)
    requires Guarded(s, password) && Possible(s, events) && AllOwn(events)
    ensures Guarded(Run(s, events), password)
    decreases |events|
  {
    hide Step, Enabled, Guarded, Own;
    if events != [] {
      StepGuarded(s, events[0], password);
      RunGuarded(Step(s, events[0]), events[1..], password);
    }
  }

  // ---- The runs that overwrite it ----

  // Events of a run from s to t without API calls, and if `own` without relocking starts.
  ghost predicate Leads(s: State, events: seq<Event>, t: State, own: bool) {
    && Possible(s, events) && Run(s, events) == t
    && forall k | 0 <= k < |events| :: !Api(events[k]) && (own ==> Own(events[k]))
  }

  lemma {:induction false} Go(s: State, events: seq<Event>, t: State, own: bool, e: Event) returns (more: seq<Event>, u: State)
    requires Leads(s, events, t, own) && Enabled(t, e) && !Api(e) && (own ==> Own(e))
    ensures u == Step(t, e) && Leads(s, more, u, own)
  {
    hide Step, Enabled, Own;
    more := Extend(s, events, e);
    u := Step(t, e);
  }

  function Another(password: string): (p: string)
    ensures p != password
  {
    password + "!"
  }

  predicate Overwritten(t: State, password: string) {
    ADMIN in t.users && t.users[ADMIN].password != password
  }

  lemma {:induction false} CommitsIt(s: State, events: seq<Event>, t: State, own: bool, h: nat, p: string) returns (more: seq<Event>, u: State)
    requires Leads(s, events, t, own) && PhaseOf(t, h) == Rewritten(p) && ADMIN in t.users
    ensures Leads(s, more, u, own) && ADMIN in u.users && u.users[ADMIN].password == p
  {
    hide Leads;
    more, u := Go(s, events, t, own, Commit(h));
  }

  lemma {:induction false} WritesIt(s: State, events: seq<Event>, t: State, own: bool, h: nat, p: string) returns (more: seq<Event>, u: State)
    requires Leads(s, events, t, own) && PhaseOf(t, h) == Rewriting(p) && ADMIN in t.users
    ensures Leads(s, more, u, own) && ADMIN in u.users && u.users[ADMIN].password == p
  {
    hide Leads;
    more, u := Go(s, events, t, own, Write(h, Complete));
    more, u := CommitsIt(s, more, u, own, h, p);
  }

  lemma {:induction false} Regenerates(s: State, events: seq<Event>, t: State, own: bool, h: nat, p: string) returns (more: seq<Event>, u: State)
    requires Leads(s, events, t, own) && PhaseOf(t, h) == Checking && ADMIN in t.users
    ensures Leads(s, more, u, own) && ADMIN in u.users && u.users[ADMIN].password == p
  {
    hide Leads;
    more, u := Go(s, events, t, own, RemoveFile);
    more, u := Go(s, more, u, own, CheckFile(h, p));
    more, u := WritesIt(s, more, u, own, h, p);
  }

  // A crash of whoever holds the lock, and the start of the same replica.
  lemma {:induction false} Restarts(s: State, before: seq<Event>, at: State, own: bool, env: Env)
    returns (h: nat, events: seq<Event>, t: State)
    requires Leads(s, before, at, own) && !env.skip && (own ==> !Relocks(env))
    ensures Leads(s, events, t, own)
    ensures PhaseOf(t, h) == Reading(env) && t.holder == Some(h) && t.users == at.users
  {
    h := if at.holder.Some? then at.holder.value else 0;
    events, t := before, at;
    hide Leads, Relocks;
    events, t := Go(s, events, t, own, Abort(h));
    events, t := Go(s, events, t, own, Start(h, env));
    events, t := Go(s, events, t, own, TakeLock(h));
  }

  lemma {:induction false} Endangered(s: State) returns (events: seq<Event>)
    requires Settled(s) && Threatened(s)
    ensures Possible(s, events) && AllOwn(events) && Overwritten(Run(s, events), s.users[ADMIN].password)
  {
    var own := true;
    assert Leads(s, [], s, own);
    var now, p := s.users[ADMIN].password, Another(s.users[ADMIN].password);
    var t, h;
    if HolderPhase(s).Checking? {
      hide Leads;
      events, t := Regenerates(s, [], s, own, s.holder.value, p);
    } else if HolderPhase(s).Rewritten? && HolderPhase(s).password != now {
      events, t := CommitsIt(s, [], s, own, s.holder.value, HolderPhase(s).password);
    } else if HolderPhase(s).Rewriting? && HolderPhase(s).password != now {
      events, t := WritesIt(s, [], s, own, s.holder.value, HolderPhase(s).password);
    } else if !SomeAdministrator(s) {
      events, t := CreatesAnother(s, own, p);
    } else {
      var u :| Administrator(s, u) && s.users[u].mustChange;
      h, events, t := Restarts(s, [], s, own, PLAIN);
      hide Leads, Threatened;
      events, t := Go(s, events, t, own, Read(h, Some(u), p));
      events, t := Regenerates(s, events, t, own, h, p);
    }
    assert Leads(s, events, t, own);
  }

  lemma {:induction false} CreatesAnother(s: State, own: bool, p: string) returns (events: seq<Event>, t: State)
    requires !SomeAdministrator(s)
    ensures Leads(s, events, t, own) && ADMIN in t.users && t.users[ADMIN].password == p
  {
    var h;
    assert Leads(s, [], s, own);
    h, events, t := Restarts(s, [], s, own, PLAIN);
    assert forall u | u in t.users :: !t.users[u].isAdmin by {
      forall u | u in t.users ensures !t.users[u].isAdmin { assert !Administrator(s, u); }
    }
    hide Leads;
    events, t := Go(s, events, t, own, Read(h, None, p));
    events, t := Go(s, events, t, own, Write(h, Complete));
    events, t := Go(s, events, t, own, Commit(h));
  }

  // A settled password survives whatever replicas, crashes and the file system do,
  // short of API calls and relocking starts, exactly when nothing threatens it.
  lemma {:induction false} SurvivesWithoutRelockIff(s: State)
    requires Waits(s) && Settled(s)
    ensures (forall events | Possible(s, events) && AllOwn(events) ::
               !Overwritten(Run(s, events), s.users[ADMIN].password))
            <==> !Threatened(s)
  {
    var password := s.users[ADMIN].password;
    if Threatened(s) {
      var events := Endangered(s);
    } else {
      forall events | Possible(s, events) && AllOwn(events)
        ensures !Overwritten(Run(s, events), password)
      {
        RunGuarded(s, events, password);
      }
    }
  }

  // The hypotheses hold from the start.
  lemma {:induction false} FreshCreateAlone(users: map<string, User>, file: Option<string>, events: seq<Event>)
    requires Possible(Fresh(users, file), events)
    ensures CreateAlone(Run(Fresh(users, file), events))
  {
    RunCreateAlone(Fresh(users, file), events);
  }

  lemma {:induction false} FreshWaits(users: map<string, User>, file: Option<string>, events: seq<Event>)
    requires Possible(Fresh(users, file), events)
    requires forall k | 0 <= k < |events| :: events[k].Start? ==> !Relocks(events[k].env)
    ensures Waits(Run(Fresh(users, file), events))
  {
    RunWaits(Fresh(users, file), events);
  }

  lemma {:induction false} RunWaits(s: State, events: seq<Event>)
    requires Waits(s) && Possible(s, events)
    requires forall k | 0 <= k < |events| :: events[k].Start? ==> !Relocks(events[k].env)
    ensures Waits(Run(s, events))
    decreases |events|
  {
    hide Step, Enabled, Waits;
    if events != [] {
      StepWaits(s, events[0]);
      RunWaits(Step(s, events[0]), events[1..]);
    }
  }

  // ---- With relocking starts too ----

  predicate NoApi(events: seq<Event>) {
    forall k | 0 <= k < |events| :: !Api(events[k])
  }

  // A user named admin that is no administrator: a relock marks it, and no start reads it.
  ghost predicate OutOfReach(s: State, password: string) {
    && CreateAlone(s) && ADMIN in s.users && s.users[ADMIN].password == password
    && !s.users[ADMIN].isAdmin && !Threatened(s)
  }

  lemma {:induction false} OthersKept(s: State, e: Event, u: string)
    requires CreateAlone(s) && SomeAdministrator(s) && Enabled(s, e) && !Api(e)
    ensures u in Step(s, e).users <==> u in s.users
    ensures u in s.users ==> Step(s, e).users[u].isAdmin == s.users[u].isAdmin
    ensures u in s.users && u != ADMIN ==> Step(s, e).users[u].mustChange == s.users[u].mustChange
  {
    if e.Commit? {
      assert !Creates(PhaseOf(s, e.r));
    }
  }

  lemma {:induction false} PhaseOutOfReach(s: State, e: Event, password: string)
    requires OutOfReach(s, password) && Enabled(s, e) && !Api(e)
    ensures var p := HolderPhase(Step(s, e));
            !p.Checking? && (p.Rewriting? || p.Rewritten? ==> p.password == password)
    ensures e.Commit? ==> !PhaseOf(s, e.r).Created?
                          && (PhaseOf(s, e.r).Rewritten? ==> PhaseOf(s, e.r).password == password)
  {
    StepSerialised(s, e);
    if e.Read? && e.found.Some? {
      assert Administrator(s, e.found.value);
    }
    if e.Commit? {
      assert Critical(PhaseOf(s, e.r));
    }
  }

  lemma {:induction false} StepOutOfReach(s: State, e: Event, password: string)
    requires OutOfReach(s, password) && Enabled(s, e) && !Api(e)
    ensures OutOfReach(Step(s, e), password)
  {
    StepCreateAlone(s, e);
    PhaseOutOfReach(s, e, password);
    PasswordChangesIff(s, e);
    var t := Step(s, e);
    OthersKept(s, e, ADMIN);
    forall u
      ensures Administrator(t, u) <==> Administrator(s, u)
      ensures Administrator(s, u) ==> t.users[u].mustChange == s.users[u].mustChange
    {
      OthersKept(s, e, u);
    }
    hide Step, Enabled, CreateAlone;
  }

  lemma {:induction false} RunOutOfReach(s: State, events: seq<Event>, password: string)
    requires OutOfReach(s, password) && Possible(s, events) && NoApi(events)
    ensures OutOfReach(Run(s, events), password)
    decreases |events|
  {
    hide Step, Enabled, OutOfReach, Api;
    if events != [] {
      StepOutOfReach(s, events[0], password);
      RunOutOfReach(Step(s, events[0]), events[1..], password);
    }
  }

  const INSECURE := Env(false, false, Some("admin"))

  lemma {:induction false} InsecureRelocks()
    ensures Relocks(INSECURE)
  {
    assert INSECURE_DEFAULTS[0] == "admin";
  }

  // Two starts overwrite a settled administrator: one relocks, the next regenerates.
  lemma {:induction false} RelockedAway(s: State) returns (events: seq<Event>)
    requires Settled(s) && s.users[ADMIN].isAdmin
    ensures Possible(s, events) && NoApi(events) && Overwritten(Run(s, events), s.users[ADMIN].password)
  {
    var p := Another(s.users[ADMIN].password);
    InsecureRelocks();
    assert Leads(s, [], s, false);
    hide Leads, Relocks;
    var h, t;
    h, events, t := Restarts(s, [], s, false, INSECURE);
    events, t := Go(s, events, t, false, Read(h, Some(ADMIN), p));
    events, t := Go(s, events, t, false, Commit(h));
    h, events, t := Restarts(s, events, t, false, PLAIN);
    events, t := Go(s, events, t, false, Read(h, Some(ADMIN), p));
    events, t := Regenerates(s, events, t, false, h, p);
    LeadsIs(s, events, t, false);
  }

  lemma {:induction false} LeadsIs(s: State, events: seq<Event>, t: State, own: bool)
    requires Leads(s, events, t, own)
    ensures Possible(s, events) && Run(s, events) == t && NoApi(events)
  {
  }

  // A settled password survives whatever replicas, their environments, crashes and the
  // file system do, short of API calls, exactly when nothing threatens it and the user
  // is no administrator. That others do not survive may take the removal of the file.
  lemma {:induction false} ChosenPasswordSurvivesIff(s: State)
    requires CreateAlone(s) && Settled(s)
    ensures (forall events | Possible(s, events) && NoApi(events) ::
               !Overwritten(Run(s, events), s.users[ADMIN].password))
            <==> !Threatened(s) && !s.users[ADMIN].isAdmin
  {
    var password := s.users[ADMIN].password;
    if Threatened(s) {
      var events := Endangered(s);
      assert NoApi(events);
    } else if s.users[ADMIN].isAdmin {
      var events := RelockedAway(s);
    } else {
      forall events | Possible(s, events) && NoApi(events)
        ensures !Overwritten(Run(s, events), password)
      {
        RunOutOfReach(s, events, password);
      }
    }
  }

  function TwoStarts(generated: string): seq<Event> {
    [Start(0, INSECURE), TakeLock(0), Read(0, Some(ADMIN), ""), Commit(0)]
    + [Start(0, INSECURE), TakeLock(0), Read(0, Some(ADMIN), ""), CheckFile(0, generated), Write(0, Complete), Commit(0)]
  }

  // The usual state of a deployment, an administrator who changed the password and no
  // file, and two undisturbed starts with an insecure ADMIN_PASSWORD.
  lemma {:induction false} TwoStartsOverwrite(mine: string, generated: string)
    ensures var s := Fresh(map[ADMIN := User(mine, false, true)], None);
            && Settled(s) && Possible(s, TwoStarts(generated))
            && Run(s, TwoStarts(generated)).users == map[ADMIN := User(generated, true, true)]
  {
    var s := Fresh(map[ADMIN := User(mine, false, true)], None);
    InsecureRelocks();
    var es := [];
    assert Possible(s, es) && Run(s, es) == s;
    hide Run, Possible, Relocks;
    es := Extend(s, es, Start(0, INSECURE));
    es := Extend(s, es, TakeLock(0));
    es := Extend(s, es, Read(0, Some(ADMIN), ""));
    es := Extend(s, es, Commit(0));
    var t := Run(s, es);
    assert t.users == map[ADMIN := User(mine, true, true)] && t.file == None && t.holder == None;
    assert PhaseOf(t, 0).Returned?;
    var more := Regenerated(t, generated, mine);
    RunSplit(s, es, more);
    assert es + more == TwoStarts(generated);
  }

  lemma {:induction false} Regenerated(s: State, generated: string, mine: string) returns (es: seq<Event>)
    requires s.users == map[ADMIN := User(mine, true, true)] && s.file == None && s.holder == None
    requires PhaseOf(s, 0).Returned?
    ensures es == [Start(0, INSECURE), TakeLock(0), Read(0, Some(ADMIN), ""), CheckFile(0, generated), Write(0, Complete), Commit(0)]
    ensures Possible(s, es) && Run(s, es).users == map[ADMIN := User(generated, true, true)]
  {
    es := [];
    assert Possible(s, es) && Run(s, es) == s;
    hide Run, Possible, Relocks;
    es := Extend(s, es, Start(0, INSECURE));
    es := Extend(s, es, TakeLock(0));
    es := Extend(s, es, Read(0, Some(ADMIN), ""));
    es := Extend(s, es, CheckFile(0, generated));
    es := Extend(s, es, Write(0, Complete));
    es := Extend(s, es, Commit(0));
  }

  // ---- When the answer is true ----

  // The answer a start is going to give, once it has read the table.
  function Promise(p: Phase): Option<bool> {
    match p
    case Checking => Some(true)
    case Rewriting(_) => Some(true)
    case Rewritten(_) => Some(true)
    case Relocking => Some(true)
    case Finishing(answer) => Some(answer)
    case Creating(_) => Some(true)
    case Created(_, mustChange) => Some(mustChange)
    case _ => None
  }

  // The flag of the row that was read, or of the row that is going to be created.
  function RowFlag(s: State, env: Env, found: Option<string>, generated: string): bool
    requires found.Some? ==> found.value in s.users
  {
    match found
    case Some(who) => s.users[who].mustChange || Relocks(env)
    case None => FirstPassword(env, generated).1
  }

  // Replica r neither starts, ends nor commits.
  predicate Between(e: Event, r: nat) {
    match e
    case Start(q, _) => q != r
    case Abort(q) => q != r
    case Commit(q) => q != r
    case _ => true
  }

  predicate AllBetween(events: seq<Event>, r: nat) {
    forall k | 0 <= k < |events| :: Between(events[k], r)
  }

  // Nothing changes what a start is going to answer; it can only fail to write.
  ghost predicate Promised(s: State, r: nat, answer: bool) {
    Promise(PhaseOf(s, r)) == Some(answer) || PhaseOf(s, r) == Returned(None)
  }

  lemma {:induction false} StepPromised(s: State, e: Event, r: nat, answer: bool)
    requires Promised(s, r, answer) && Enabled(s, e) && Between(e, r)
    ensures Promised(Step(s, e), r, answer)
  {
  }

  lemma {:induction false} RunPromised(s: State, events: seq<Event>, r: nat, answer: bool)
    requires Promised(s, r, answer) && Possible(s, events) && AllBetween(events, r)
    ensures Promised(Run(s, events), r, answer)
    decreases |events|
  {
    hide Step, Enabled, Promised, Between;
    if events != [] {
      StepPromised(s, events[0], r, answer);
      RunPromised(Step(s, events[0]), events[1..], r, answer);
    }
  }

  // Whatever happens in between, the answer is the flag of the row that was read.
  lemma {:induction false} AnswerIsRowRead(s: State, r: nat, found: Option<string>, generated: string, events: seq<Event>)
    requires Enabled(s, Read(r, found, generated))
    requires Possible(Step(s, Read(r, found, generated)), events) && AllBetween(events, r)
    requires Enabled(Run(Step(s, Read(r, found, generated)), events), Commit(r))
    ensures PhaseOf(Step(Run(Step(s, Read(r, found, generated)), events), Commit(r)), r)
         == Returned(Some(RowFlag(s, PhaseOf(s, r).env, found, generated)))
  {
    var answer := RowFlag(s, PhaseOf(s, r).env, found, generated);
    var t := Step(s, Read(r, found, generated));
    assert Promised(t, r, answer);
    RunPromised(t, events, r, answer);
    hide Run, Possible;
  }

  // What a start that found no administrator is going to commit.
  predicate Commits(p: Phase, password: string, mustChange: bool) {
    (mustChange && p == Creating(password)) || p == Created(password, mustChange) || p == Returned(None)
  }

  lemma {:induction false} RunCommits(s: State, events: seq<Event>, r: nat, password: string, mustChange: bool)
    requires Commits(PhaseOf(s, r), password, mustChange) && Possible(s, events) && AllBetween(events, r)
    ensures Commits(PhaseOf(Run(s, events), r), password, mustChange)
    decreases |events|
  {
    hide Step, Enabled, Commits, Between;
    if events != [] {
      StepCommits(s, events[0], r, password, mustChange);
      RunCommits(Step(s, events[0]), events[1..], r, password, mustChange);
    }
  }

  lemma {:induction false} StepCommits(s: State, e: Event, r: nat, password: string, mustChange: bool)
    requires Commits(PhaseOf(s, r), password, mustChange) && Enabled(s, e) && Between(e, r)
    ensures Commits(PhaseOf(Step(s, e), r), password, mustChange)
  {
  }

  // The administrator that a start creates, whatever happens in between: the password of
  // the operator if there is one, else the random one; to be changed if it is random or,
  // outside demo mode, insecure; and the answer says so.
  lemma {:induction false} CreatedIsConfigured(s: State, r: nat, generated: string, events: seq<Event>)
    requires Enabled(s, Read(r, None, generated))
    requires Possible(Step(s, Read(r, None, generated)), events) && AllBetween(events, r)
    requires Enabled(Run(Step(s, Read(r, None, generated)), events), Commit(r))
    ensures var env := PhaseOf(s, r).env;
            var v := Step(Run(Step(s, Read(r, None, generated)), events), Commit(r));
            var chosen := env.adminPassword.Some? && env.adminPassword.value != "";
            && ADMIN in v.users
            && v.users[ADMIN].password == (if chosen then env.adminPassword.value else generated)
            && (v.users[ADMIN].mustChange <==> !chosen || (Insecure(env.adminPassword.value) && !env.demo))
            && PhaseOf(v, r) == Returned(Some(v.users[ADMIN].mustChange))
  {
    var env := PhaseOf(s, r).env;
    var t := Step(s, Read(r, None, generated));
    var chosen := env.adminPassword.Some? && env.adminPassword.value != "";
    var password := if chosen then env.adminPassword.value else generated;
    var mustChange := !chosen || (Insecure(env.adminPassword.value) && !env.demo);
    hide Insecure;
    assert Commits(PhaseOf(t, r), password, mustChange);
    RunCommits(t, events, r, password, mustChange);
    hide Run, Possible;
  }

  // The lock is r's, the table is still the one it read, and the kind of its work is set.
  ghost predicate Working(s: State, users: map<string, User>, r: nat, relocks: bool, creates: bool) {
    Serialised(s) &&
    (PhaseOf(s, r) == Returned(None)
     || (s.holder == Some(r) && s.users == users
         && PhaseOf(s, r).Relocking? == relocks && Creates(PhaseOf(s, r)) == creates && Promise(PhaseOf(s, r)).Some?))
  }

  lemma {:induction false} StepWorking(s: State, e: Event, users: map<string, User>, r: nat, relocks: bool, creates: bool)
    requires Working(s, users, r, relocks, creates) && Enabled(s, e) && Between(e, r) && Undisturbed(s, e)
    ensures Working(Step(s, e), users, r, relocks, creates)
  {
    StepSerialised(s, e);
    if e.Commit? {
      assert Critical(PhaseOf(s, e.r));
    }
  }

  lemma {:induction false} RunWorking(s: State, events: seq<Event>, users: map<string, User>, r: nat, relocks: bool, creates: bool)
    requires Working(s, users, r, relocks, creates) && Possible(s, events) && AllBetween(events, r) && AllUndisturbed(s, events)
    ensures Working(Run(s, events), users, r, relocks, creates)
    decreases |events|
  {
    hide Step, Enabled, Working, Between, Undisturbed;
    if events != [] {
      StepWorking(s, events[0], users, r, relocks, creates);
      RunWorking(Step(s, events[0]), events[1..], users, r, relocks, creates);
    }
  }

  // A new row, a relock of an existing row named admin, or a row read whose flag is
  // that of the row named admin.
  predicate TellsTruth(s: State, env: Env, found: Option<string>)
    requires found.Some? ==> found.value in s.users
  {
    match found
    case None => true
    case Some(who) =>
      if !s.users[who].mustChange && Relocks(env) then ADMIN in s.users
      else s.users[who].mustChange == MustChange(s)
  }

  // What a commit leaves of the flag.
  lemma {:induction false} CommitFlag(s: State, r: nat)
    requires Enabled(s, Commit(r))
    ensures MustChange(Step(s, Commit(r))) ==
            if PhaseOf(s, r).Relocking? then ADMIN in s.users
            else if PhaseOf(s, r).Created? then PhaseOf(s, r).mustChange
            else MustChange(s)
  {
  }

  // With no user change while r holds the lock, its answer is the flag of the
  // committed row named admin exactly when it tells the truth; what it found and its
  // environment decide that before it goes on.
  lemma {:induction false} AnswerIsTrueIff(s: State, r: nat, found: Option<string>, generated: string, events: seq<Event>)
    requires Serialised(s) && Enabled(s, Read(r, found, generated))
    requires var t := Step(s, Read(r, found, generated));
             Possible(t, events) && AllBetween(events, r) && AllUndisturbed(t, events) && Enabled(Run(t, events), Commit(r))
    ensures var v := Step(Run(Step(s, Read(r, found, generated)), events), Commit(r));
            PhaseOf(v, r) == Returned(Some(MustChange(v))) <==> TellsTruth(s, PhaseOf(s, r).env, found)
  {
    var e := Read(r, found, generated);
    var t := Step(s, e);
    var relocks, creates := PhaseOf(t, r).Relocking?, Creates(PhaseOf(t, r));
    StepSerialised(s, e);
    assert Critical(PhaseOf(s, r));
    assert Working(t, s.users, r, relocks, creates);
    RunWorking(t, events, s.users, r, relocks, creates);
    AnswerIsRowRead(s, r, found, generated, events);
    CommitFlag(Run(t, events), r);
    var u := Run(t, events);
    assert !(PhaseOf(u, r) == Returned(None));
    hide Run, Possible, AllBetween, AllUndisturbed, Serialised;
  }

  const BOB := "bob"

  function ReadsBob(): seq<Event> {
    [Start(0, PLAIN), TakeLock(0), Read(0, Some(BOB), ""), Commit(0)]
  }

  // Two administrators, and the query returns the settled one: the server opens while
  // the built-in user still has to change its password.
  lemma {:induction false} OtherAdministratorAnswers(first: string, second: string)
    ensures var s := Fresh(map[ADMIN := User(first, true, true), BOB := User(second, false, true)], None);
            && Possible(s, ReadsBob())
            && PhaseOf(Run(s, ReadsBob()), 0) == Returned(Some(false)) && MustChange(Run(s, ReadsBob()))
  {
    var s := Fresh(map[ADMIN := User(first, true, true), BOB := User(second, false, true)], None);
    var es := [];
    assert Possible(s, es) && Run(s, es) == s;
    hide Run, Possible;
    es := Extend(s, es, Start(0, PLAIN));
    es := Extend(s, es, TakeLock(0));
    es := Extend(s, es, Read(0, Some(BOB), ""));
    es := Extend(s, es, Commit(0));
    assert es == ReadsBob();
  }

  // ---- From a fresh deployment ----

  lemma {:induction false} FreshIs(users: map<string, User>, file: Option<string>)
    ensures var s := Fresh(users, file);
            && (Inv(s) <==> Agreed(s))
            && (CarefulInv(s) <==> AdminIsAdmin(s))
            && (AnswerInv(s) <==> SoleAdmin(s))
  {
  }

  // The file agrees after every calm run, and after every careful one.
  lemma {:induction false} FreshAgrees(users: map<string, User>, file: Option<string>, events: seq<Event>)
    requires Agreed(Fresh(users, file)) && Possible(Fresh(users, file), events)
    requires Calm(Fresh(users, file), events)
             || (AdminIsAdmin(Fresh(users, file)) && AllCareful(Fresh(users, file), events))
    ensures Run(Fresh(users, file), events).holder == None ==> Agreed(Run(Fresh(users, file), events))
  {
    FreshIs(users, file);
    if Calm(Fresh(users, file), events) {
      CalmRunsAgree(Fresh(users, file), events);
    } else {
      CarefulRunsAgree(Fresh(users, file), events);
    }
  }

  lemma {:induction false} FreshAnswers(users: map<string, User>, file: Option<string>, events: seq<Event>, r: nat)
    requires SoleAdmin(Fresh(users, file))
    requires Possible(Fresh(users, file), events) && AllUndisturbed(Fresh(users, file), events)
    requires Enabled(Run(Fresh(users, file), events), Commit(r))
    ensures var v := Step(Run(Fresh(users, file), events), Commit(r));
            PhaseOf(v, r) == Returned(Some(MustChange(v)))
  {
    FreshIs(users, file);
    AnswersAreTrue(Fresh(users, file), events, r);
  }
}
