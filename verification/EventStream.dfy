// The server-sent-events hook: connecting, failing, waiting to retry, cleaning up.
module EventStream {
  import opened Text

  // Every run of the effect is one generation: its own `cancelled` flag and retry
  // timer, and a reference to the source that all runs share. The browser holds the
  // open sources and the pending timers, each made by some generation.
  datatype State = State(
    mounted: bool,
    generation: nat,
    retryTimer: Option<nat>,
    esRef: Option<nat>,
    open: map<nat, nat>,
    timers: map<nat, nat>,
    nextId: nat)

  datatype Event = Mount | Error(es: nat) | Fire(timer: nat) | Cleanup

  // React runs an effect after the cleanup of the one before; a closed source
  // dispatches nothing and a cleared timer does not fire.
  predicate Enabled(s: State, e: Event) {
    match e
    case Mount => !s.mounted
    case Error(es) => es in s.open
    case Fire(t) => t in s.timers
    case Cleanup => s.mounted
  }

  predicate Cancelled(s: State, generation: nat) {
    !s.mounted || generation != s.generation
  }

  function Connect(s: State, generation: nat): State {
    if Cancelled(s, generation) then s
    else s.(open := s.open[s.nextId := generation], esRef := Some(s.nextId), nextId := s.nextId + 1)
  }

  function Step(s: State, e: Event): State
    requires Enabled(s, e)
  {
    match e
    case Mount =>
      Connect(s.(mounted := true, generation := s.generation + 1, retryTimer := None), s.generation + 1)
    case Error(es) =>
      var generation := s.open[es];
      var closed := s.(open := s.open - {es}, esRef := None);
      if Cancelled(s, generation) then closed
      else closed.(timers := s.timers[s.nextId := generation], retryTimer := Some(s.nextId), nextId := s.nextId + 1)
    case Fire(t) =>
      Connect(s.(timers := s.timers - {t}), s.timers[t])
    case Cleanup =>
      var cleared := s.(mounted := false,
                        timers := if s.retryTimer.Some? then s.timers - {s.retryTimer.value} else s.timers);
      if s.esRef.Some? then cleared.(open := s.open - {s.esRef.value}, esRef := None) else cleared
  }

  const START := State(false, 0, None, None, map[], map[], 0)

  predicate Possible(s: State, events: seq<Event>)
    decreases |events|
  {
    events == [] || (Enabled(s, events[0]) && Possible(Step(s, events[0]), events[1..]))
  }

  function Run(s: State, events: seq<Event>): State
    requires Possible(s, events)
    decreases |events|
  {
    if events == [] then s else Run(Step(s, events[0]), events[1..])
  }

  // While mounted there is one source, or one timer, and the hook holds on to it.
  ghost predicate OneConnection(s: State) {
    && (forall id | id in s.open :: id < s.nextId)
    && (forall id | id in s.timers :: id < s.nextId)
    && (if !s.mounted then s.open == map[] && s.timers == map[] && s.esRef == None
        else
          || (s.esRef.Some? && s.open == map[s.esRef.value := s.generation] && s.timers == map[])
          || (s.esRef == None && s.retryTimer.Some? && s.open == map[]
              && s.timers == map[s.retryTimer.value := s.generation]))
  }

  lemma {:induction false} StepKeepsOne(s: State, e: Event)
    requires OneConnection(s) && Enabled(s, e)
    ensures OneConnection(Step(s, e))
  {
    var t := Step(s, e);
    match e
    case Mount =>
      assert t.open == map[s.nextId := s.generation + 1];
    case Error(es) =>
      assert s.open - {es} == map[] && s.timers == map[];
    case Fire(timer) =>
      assert s.timers - {timer} == map[] && s.open == map[];
    case Cleanup =>
      if s.esRef.Some? {
        assert t.open == map[] && t.timers == map[];
      } else {
        assert t.timers == map[];
      }
  }

  // In every run: exactly one source or timer while mounted, nothing otherwise.
  lemma {:induction false} AlwaysOne(s: State, events: seq<Event>)
    requires OneConnection(s) && Possible(s, events)
    ensures OneConnection(Run(s, events))
    ensures |Run(s, events).open| + |Run(s, events).timers| == if Run(s, events).mounted then 1 else 0
    decreases |events|
  {
    if events != [] {
      StepKeepsOne(s, events[0]);
      AlwaysOne(Step(s, events[0]), events[1..]);
    }
  }

  lemma {:induction false} EveryRun(events: seq<Event>)
    requires Possible(START, events)
    ensures var s := Run(START, events);
            |s.open| + |s.timers| == if s.mounted then 1 else 0
  {
    AlwaysOne(START, events);
  }

  // After a cleanup the only thing that can happen is another mount.
  lemma {:induction false} QuietAfterCleanup(events: seq<Event>, e: Event)
    requires Possible(START, events) && !Run(START, events).mounted
    ensures Enabled(Run(START, events), e) <==> e == Mount
  {
    AlwaysOne(START, events);
  }

  // In every run: a mount opens a source, an error of the source closes it and starts
  // a timer, a timer that fires opens a source again, and nothing else is left.
  lemma {:induction false} StepsTakeTurns(events: seq<Event>, e: Event)
    requires Possible(START, events) && Enabled(Run(START, events), e)
    ensures var t := Step(Run(START, events), e);
            && (e.Mount? || e.Fire? ==> |t.open| == 1 && t.timers == map[])
            && (e.Error? ==> t.open == map[] && |t.timers| == 1)
            && (e.Cleanup? ==> t.open == map[] && t.timers == map[])
  {
    var s := Run(START, events);
    AlwaysOne(START, events);
    StepKeepsOne(s, e);
    hide Run, Possible;
    match e
    case Mount =>
    case Fire(timer) => assert s.timers - {timer} == map[];
    case Error(es) => assert s.open - {es} == map[];
    case Cleanup =>
  }

  // ---- The hook as it is written: handlers that change its variables ----

  class Hook {
    var mounted: bool
    var generation: nat
    var retryTimer: Option<nat>
    var esRef: Option<nat>
    var open: map<nat, nat>
    var timers: map<nat, nat>
    var nextId: nat

    ghost function Now(): State
      reads this
    {
      State(mounted, generation, retryTimer, esRef, open, timers, nextId)
    }

    constructor ()
      ensures Now() == START
    {
      mounted, generation, retryTimer, esRef := false, 0, None, None;
      open, timers, nextId := map[], map[], 0;
    }

    method OpenSource(closure: nat)
      modifies this
      ensures Now() == Connect(old(Now()), closure)
    {
      if !mounted || closure != generation {
        return;
      }
      open := open[nextId := closure];
      esRef := Some(nextId);
      nextId := nextId + 1;
    }

    method Mount()
      requires Enabled(Now(), Event.Mount)
      modifies this
      ensures Now() == Step(old(Now()), Event.Mount)
    {
      mounted := true;
      generation := generation + 1;
      retryTimer := None;
      OpenSource(generation);
    }

    method OnError(es: nat)
      requires Enabled(Now(), Error(es))
      modifies this
      ensures Now() == Step(old(Now()), Error(es))
    {
      var closure := open[es];
      open := open - {es};
      esRef := None;
      if mounted && closure == generation {
        retryTimer := Some(nextId);
        timers := timers[nextId := closure];
        nextId := nextId + 1;
      }
    }

    method OnTimer(timer: nat)
      requires Enabled(Now(), Fire(timer))
      modifies this
      ensures Now() == Step(old(Now()), Fire(timer))
    {
      var closure := timers[timer];
      timers := timers - {timer};
      OpenSource(closure);
    }

    method Cleanup()
      requires Enabled(Now(), Event.Cleanup)
      modifies this
      ensures Now() == Step(old(Now()), Event.Cleanup)
    {
      mounted := false;
      if retryTimer.Some? {
        timers := timers - {retryTimer.value};
      }
      if esRef.Some? {
        open := open - {esRef.value};
        esRef := None;
      }
    }
  }
}
