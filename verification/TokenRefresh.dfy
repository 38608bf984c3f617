// The single-flight token refresh of the web client. A handler runs without
// interruption between two awaits, so each such stretch is one step.
module TokenRefresh {
  datatype Outcome = InFlight | Succeeded | Failed

  datatype Role = Leader | Waiter

  // Pending: the caller's promise has not settled. Lost: its callback threw or its
  // fetch rejected, and nothing will settle the promise.
  datatype Fate = Pending | Retrying | Settled | Lost

  // A request that came back 401 outside the auth endpoints. `rebuildable` says
  // whether constructing the retried Request succeeds.
  datatype Request = Request(rebuildable: bool, role: Role, round: nat, sends: nat, fate: Fate)

  // The two module variables, every request so far, and every refresh call so far.
  datatype State = State(
    isRefreshing: bool,
    refreshSubscribers: seq<nat>,
    requests: map<nat, Request>,
    refreshes: seq<Outcome>)

  datatype Event =
    | Unauthorized(id: nat, rebuildable: bool)
    | RefreshAnswered(id: nat, ok: bool)
    | RetryAnswered(id: nat, ok: bool)

  function CurrentRound(s: State): int {
    |s.refreshes| - 1
  }

  predicate Enabled(s: State, e: Event) {
    match e
    case Unauthorized(id, _) => id !in s.requests
    case RefreshAnswered(id, _) =>
      && s.refreshes != []
      && id in s.requests && s.requests[id].role == Leader
      && s.requests[id].round == CurrentRound(s)
      && s.refreshes[CurrentRound(s)] == InFlight
    case RetryAnswered(id, _) => id in s.requests && s.requests[id].fate == Retrying
  }

  // Rebuilding and sending a request again.
  function Resend(q: Request): Request {
    if q.rebuildable then q.(sends := q.sends + 1, fate := Retrying)
    else q.(fate := if q.role == Leader then Settled else Lost)
  }

  // onTokenRefreshed: every callback up to its first await.
  function Notify(requests: map<nat, Request>, subscribers: seq<nat>): map<nat, Request>
    requires forall id | id in subscribers :: id in requests
  {
    if subscribers == [] then requests
    else Notify(requests[subscribers[0] := Resend(requests[subscribers[0]])], subscribers[1..])
  }

  predicate KnownSubscribers(s: State) {
    forall id | id in s.refreshSubscribers :: id in s.requests
  }

  function Step(s: State, e: Event): State
    requires Enabled(s, e) && KnownSubscribers(s)
  {
    match e
    case Unauthorized(id, rebuildable) =>
      if s.isRefreshing then
        s.(refreshSubscribers := s.refreshSubscribers + [id],
           requests := s.requests[id := Request(rebuildable, Waiter, if s.refreshes == [] then 0 else CurrentRound(s), 0, Pending)])
      else
        s.(isRefreshing := true,
           requests := s.requests[id := Request(rebuildable, Leader, |s.refreshes|, 0, Pending)],
           refreshes := s.refreshes + [InFlight])
    case RefreshAnswered(id, true) =>
      var notified := Notify(s.requests, s.refreshSubscribers);
      assert id in notified by { NotifyDomain(s.requests, s.refreshSubscribers); }
      State(false, [], notified[id := Resend(notified[id])], s.refreshes[CurrentRound(s) := Succeeded])
    case RefreshAnswered(id, false) =>
      State(false, [], s.requests[id := s.requests[id].(fate := Settled)], s.refreshes[CurrentRound(s) := Failed])
    case RetryAnswered(id, ok) =>
      var q := s.requests[id];
      s.(requests := s.requests[id := q.(fate := if ok || q.role == Leader then Settled else Lost)])
  }

  lemma {:induction false} NotifyDomain(requests: map<nat, Request>, subscribers: seq<nat>)
    requires forall id | id in subscribers :: id in requests
    ensures Notify(requests, subscribers).Keys == requests.Keys
  {
    if subscribers != [] {
      var first := subscribers[0];
      NotifyDomain(requests[first := Resend(requests[first])], subscribers[1..]);
    }
  }

  predicate NoRepeats(ids: seq<nat>) {
    forall i, j | 0 <= i < j < |ids| :: ids[i] != ids[j]
  }

  // Each subscriber is resent once and nobody else is touched.
  lemma {:induction false} NotifyIs(requests: map<nat, Request>, subscribers: seq<nat>, id: nat)
    requires NoRepeats(subscribers) && id in requests
    requires forall q | q in subscribers :: q in requests
    ensures id in Notify(requests, subscribers)
    ensures Notify(requests, subscribers)[id] == if id in subscribers then Resend(requests[id]) else requests[id]
  {
    if subscribers != [] {
      var first, rest := subscribers[0], subscribers[1..];
      assert first !in rest;
      NotifyIs(requests[first := Resend(requests[first])], rest, id);
      assert subscribers == [first] + rest;
    }
  }

  const START := State(false, [], map[], [])

  // ---- What every run keeps ----

  ghost predicate RequestOk(s: State, q: Request) {
    && q.round < |s.refreshes|
    && match s.refreshes[q.round]
       case InFlight => q.sends == 0 && q.fate == Pending
       case Failed => q.sends == 0 && q.fate == (if q.role == Leader then Settled else Pending)
       case Succeeded =>
         if q.rebuildable then q.sends == 1 && q.fate != Pending && (q.role == Leader ==> q.fate != Lost)
         else q.sends == 0 && q.fate == (if q.role == Leader then Settled else Lost)
  }

  // At most one refresh is in flight, and isRefreshing says whether one is.
  ghost predicate FlightOk(s: State) {
    && (forall k | 0 <= k < |s.refreshes| :: s.refreshes[k] == InFlight ==> k == CurrentRound(s))
    && (s.isRefreshing <==> s.refreshes != [] && s.refreshes[CurrentRound(s)] == InFlight)
  }

  predicate WaitsNow(s: State, q: Request) {
    s.isRefreshing && q.role == Waiter && q.round == CurrentRound(s)
  }

  // The queue holds exactly the waiters of the round in flight.
  ghost predicate QueueOk(s: State) {
    && NoRepeats(s.refreshSubscribers)
    && KnownSubscribers(s)
    && (forall id | id in s.requests :: id in s.refreshSubscribers <==> WaitsNow(s, s.requests[id]))
  }

  predicate SameLeader(q: Request, q': Request) {
    q.role == Leader && q'.role == Leader && q.round == q'.round
  }

  ghost predicate LeadersOk(s: State) {
    forall id, id' | id in s.requests && id' in s.requests ::
      SameLeader(s.requests[id], s.requests[id']) ==> id == id'
  }

  ghost predicate RequestsOk(s: State) {
    forall id | id in s.requests :: RequestOk(s, s.requests[id])
  }

  ghost predicate Inv(s: State) {
    FlightOk(s) && QueueOk(s) && LeadersOk(s) && RequestsOk(s)
  }

  lemma {:induction false} NotifyAll(s: State)
    requires Inv(s)
    ensures Notify(s.requests, s.refreshSubscribers).Keys == s.requests.Keys
    ensures forall q | q in s.requests ::
              Notify(s.requests, s.refreshSubscribers)[q]
              == if q in s.refreshSubscribers then Resend(s.requests[q]) else s.requests[q]
  {
    NotifyDomain(s.requests, s.refreshSubscribers);
    forall q | q in s.requests
      ensures Notify(s.requests, s.refreshSubscribers)[q]
           == if q in s.refreshSubscribers then Resend(s.requests[q]) else s.requests[q]
    {
      NotifyIs(s.requests, s.refreshSubscribers, q);
    }
  }

  lemma {:induction false} UnauthorizedKeepsInv(s: State, id: nat, rebuildable: bool)
    requires Inv(s) && Enabled(s, Unauthorized(id, rebuildable))
    ensures Inv(Step(s, Unauthorized(id, rebuildable)))
  {
    var t := Step(s, Unauthorized(id, rebuildable));
    assert FlightOk(t);
    assert id !in s.refreshSubscribers;
    assert QueueOk(t);
    assert LeadersOk(t) by {
      forall x | x in s.requests && s.requests[x].role == Leader
        ensures s.requests[x].round < |s.refreshes|
      {
        assert RequestOk(s, s.requests[x]);
      }
    }
    forall x | x in t.requests
      ensures RequestOk(t, t.requests[x])
    {
      if x != id {
        assert RequestOk(s, s.requests[x]);
      }
    }
  }

  // What the end of a round leaves of each request.
  lemma {:induction false} SuccessIs(s: State, leader: nat)
    requires Inv(s) && Enabled(s, RefreshAnswered(leader, true))
    ensures var t := Step(s, RefreshAnswered(leader, true));
            && t.requests.Keys == s.requests.Keys
            && !t.isRefreshing && t.refreshSubscribers == [] && t.refreshes == s.refreshes[CurrentRound(s) := Succeeded]
            && forall id | id in s.requests ::
                 t.requests[id] ==
                 if s.requests[id].round == CurrentRound(s) then Resend(s.requests[id]) else s.requests[id]
  {
    NotifyAll(s);
    hide Notify;
    assert s.requests[leader].role == Leader;
    forall id | id in s.requests && id != leader && s.requests[id].round == CurrentRound(s)
      ensures id in s.refreshSubscribers
    {
      assert !SameLeader(s.requests[id], s.requests[leader]);
      assert WaitsNow(s, s.requests[id]);
    }
  }

  lemma {:induction false} SuccessKeepsInv(s: State, leader: nat)
    requires Inv(s) && Enabled(s, RefreshAnswered(leader, true))
    ensures Inv(Step(s, RefreshAnswered(leader, true)))
  {
    SuccessIs(s, leader);
    hide Step;
    var t := Step(s, RefreshAnswered(leader, true));
    assert FlightOk(t) && QueueOk(t);
    assert LeadersOk(t) by {
      forall id, id' | id in t.requests && id' in t.requests && SameLeader(t.requests[id], t.requests[id'])
        ensures id == id'
      {
        assert SameLeader(s.requests[id], s.requests[id']);
      }
    }
    forall id | id in t.requests
      ensures RequestOk(t, t.requests[id])
    {
      assert RequestOk(s, s.requests[id]);
    }
  }

  lemma {:induction false} FailureKeepsInv(s: State, leader: nat)
    requires Inv(s) && Enabled(s, RefreshAnswered(leader, false))
    ensures Inv(Step(s, RefreshAnswered(leader, false)))
  {
    var t := Step(s, RefreshAnswered(leader, false));
    assert FlightOk(t) && QueueOk(t) && LeadersOk(t);
    forall id | id in t.requests
      ensures RequestOk(t, t.requests[id])
    {
      assert RequestOk(s, s.requests[id]);
      assert SameLeader(s.requests[id], s.requests[leader]) ==> id == leader;
    }
  }

  lemma {:induction false} RetryKeepsInv(s: State, id: nat, ok: bool)
    requires Inv(s) && Enabled(s, RetryAnswered(id, ok))
    ensures Inv(Step(s, RetryAnswered(id, ok)))
  {
    var t := Step(s, RetryAnswered(id, ok));
    assert RequestOk(s, s.requests[id]);
    assert FlightOk(t) && QueueOk(t) && LeadersOk(t);
    forall x | x in t.requests
      ensures RequestOk(t, t.requests[x])
    {
      assert RequestOk(s, s.requests[x]);
    }
  }

  lemma {:induction false} StepKeepsInv(s: State, e: Event)
    requires Inv(s) && Enabled(s, e)
    ensures Inv(Step(s, e))
  {
    hide Step;
    match e
    case Unauthorized(id, rebuildable) => UnauthorizedKeepsInv(s, id, rebuildable);
    case RefreshAnswered(id, true) => SuccessKeepsInv(s, id);
    case RefreshAnswered(id, false) => FailureKeepsInv(s, id);
    case RetryAnswered(id, ok) => RetryKeepsInv(s, id, ok);
  }

  ghost predicate Possible(s: State, events: seq<Event>)
    requires Inv(s)
    decreases |events|
  {
    events == [] || (Enabled(s, events[0]) &&
      (StepKeepsInv(s, events[0]); Possible(Step(s, events[0]), events[1..])))
  }

  ghost function Run(s: State, events: seq<Event>): (t: State)
    requires Inv(s) && Possible(s, events)
    ensures Inv(t)
    decreases |events|
  {
    if events == [] then s else (StepKeepsInv(s, events[0]); Run(Step(s, events[0]), events[1..]))
  }

  // In every run: one refresh at a time, a queue only while it runs, no request sent
  // again twice, and sent again exactly when it can be and its own round succeeded.
  lemma {:induction false} SingleFlight(events: seq<Event>, id: nat)
    requires Possible(START, events)
    ensures var s := Run(START, events);
            && (forall j, k | 0 <= j < |s.refreshes| && 0 <= k < |s.refreshes| ::
                 s.refreshes[j] == InFlight && s.refreshes[k] == InFlight ==> j == k)
            && (s.refreshSubscribers != [] ==> s.isRefreshing)
            && (id in s.requests ==>
                 var q := s.requests[id];
                 && q.round < |s.refreshes|
                 && q.sends == if s.refreshes[q.round] == Succeeded && q.rebuildable then 1 else 0)
  {
    var s := Run(START, events);
    if s.refreshSubscribers != [] {
      assert s.refreshSubscribers[0] in s.refreshSubscribers;
    }
  }

  // ---- Once decided, always decided ----

  ghost predicate Kept(s: State, t: State) {
    && |s.refreshes| <= |t.refreshes|
    && (forall k | 0 <= k < |s.refreshes| && s.refreshes[k] != InFlight :: t.refreshes[k] == s.refreshes[k])
    && (forall id | id in s.requests ::
          id in t.requests && t.requests[id].role == s.requests[id].role && t.requests[id].round == s.requests[id].round
          && t.requests[id].rebuildable == s.requests[id].rebuildable)
  }

  lemma {:induction false} SuccessKeeps(s: State, leader: nat)
    requires Inv(s) && Enabled(s, RefreshAnswered(leader, true))
    ensures Kept(s, Step(s, RefreshAnswered(leader, true)))
  {
    SuccessIs(s, leader);
    hide Step, Inv;
  }

  lemma {:induction false} StepKeeps(s: State, e: Event)
    requires Inv(s) && Enabled(s, e)
    ensures Kept(s, Step(s, e))
  {
    hide Inv, Notify;
    if e.RefreshAnswered? && e.ok {
      SuccessKeeps(s, e.id);
    }
  }

  lemma {:induction false} RunKeeps(s: State, events: seq<Event>)
    requires Inv(s) && Possible(s, events)
    ensures Kept(s, Run(s, events))
    decreases |events|
  {
    if events != [] {
      StepKeeps(s, events[0]);
      StepKeepsInv(s, events[0]);
      RunKeeps(Step(s, events[0]), events[1..]);
    }
  }

  // A waiter of a failed round never settles and is never sent again, whatever follows.
  lemma {:induction false} DroppedForever(s: State, events: seq<Event>, id: nat)
    requires Inv(s) && Possible(s, events)
    requires id in s.requests && s.requests[id].role == Waiter && s.refreshes[s.requests[id].round] == Failed
    ensures id in Run(s, events).requests
    ensures Run(s, events).requests[id].fate == Pending && Run(s, events).requests[id].sends == 0
  {
    RunKeeps(s, events);
    assert RequestOk(Run(s, events), Run(s, events).requests[id]);
  }

  // Every waiter of a round is sent again in the very step that ends it well.
  lemma {:induction false} WaitersRetriedAtSuccess(s: State, leader: nat, id: nat)
    requires Inv(s) && Enabled(s, RefreshAnswered(leader, true))
    requires id in s.refreshSubscribers && s.requests[id].rebuildable
    ensures var t := Step(s, RefreshAnswered(leader, true));
            && id in t.requests
            && s.requests[id].sends == 0 && t.requests[id].sends == 1 && t.requests[id].fate == Retrying
  {
    SuccessIs(s, leader);
    hide Step;
    assert RequestOk(s, s.requests[id]) && WaitsNow(s, s.requests[id]);
  }

  // Which callers of an ended round still wait for ever, and which lost their callback.
  lemma {:induction false} PendingIff(events: seq<Event>, id: nat)
    requires Possible(START, events) && id in Run(START, events).requests
    ensures var s := Run(START, events);
            var q := s.requests[id];
            && q.round < |s.refreshes|
            && (s.refreshes[q.round] != InFlight ==>
                  && (q.fate == Pending <==> q.role == Waiter && s.refreshes[q.round] == Failed)
                  && (q.fate == Lost ==> q.role == Waiter && s.refreshes[q.round] == Succeeded)
                  && (!q.rebuildable ==> (q.fate == Lost <==> q.role == Waiter && s.refreshes[q.round] == Succeeded)))
  {
    var s := Run(START, events);
    hide Run, Possible;
    assert RequestOk(s, s.requests[id]);
  }

  // A callback is lost exactly when its request cannot be built at the end of the
  // round, or is sent again and fails.
  lemma {:induction false} LostIff(s: State, e: Event, id: nat)
    requires Inv(s) && Enabled(s, e) && id in s.requests && s.requests[id].fate != Lost
    ensures id in Step(s, e).requests
    ensures Step(s, e).requests[id].fate == Lost <==>
              || (e.RefreshAnswered? && e.ok && id in s.refreshSubscribers && !s.requests[id].rebuildable)
              || (e == RetryAnswered(id, false) && s.requests[id].role == Waiter)
  {
    if e.RefreshAnswered? && e.ok {
      SuccessIs(s, e.id);
      assert WaitsNow(s, s.requests[id]) <==> id in s.refreshSubscribers;
      hide Step;
    }
  }

  // The answer to a request sent again settles its caller; if it cannot be fetched the
  // leader's caller gets the error and a waiter's callback is lost.
  lemma {:induction false} RetrySettles(s: State, id: nat, ok: bool)
    requires Enabled(s, RetryAnswered(id, ok)) && KnownSubscribers(s)
    ensures var t := Step(s, RetryAnswered(id, ok));
            && t.requests.Keys == s.requests.Keys
            && t.requests[id].fate == (if ok then Settled else match s.requests[id].role case Leader => Settled case Waiter => Lost)
            && (forall q | q in s.requests && q != id :: t.requests[q] == s.requests[q])
            && t.isRefreshing == s.isRefreshing && t.refreshSubscribers == s.refreshSubscribers && t.refreshes == s.refreshes
  {
  }

  // In every run: a 401 joins the round in flight, which answers for it, and starts no
  // other; with none in flight it leads a new one. Nobody else is touched.
  lemma {:induction false} JoinsOrLeads(events: seq<Event>, id: nat, rebuildable: bool)
    requires Possible(START, events) && Enabled(Run(START, events), Unauthorized(id, rebuildable))
    ensures var s := Run(START, events);
            var t := Step(s, Unauthorized(id, rebuildable));
            var n := |s.refreshes|;
            && t.requests.Keys == s.requests.Keys + {id}
            && (forall q | q in s.requests :: t.requests[q] == s.requests[q])
            && (if n > 0 && s.refreshes[n - 1] == InFlight
                then t.requests[id] == Request(rebuildable, Waiter, n - 1, 0, Pending) && t.refreshes == s.refreshes
                else t.requests[id] == Request(rebuildable, Leader, n, 0, Pending) && t.refreshes == s.refreshes + [InFlight])
  {
    var s := Run(START, events);
    hide Run, Possible;
    assert FlightOk(s);
  }

  const DROPPED: seq<Event> := [Unauthorized(0, true), Unauthorized(1, true), RefreshAnswered(0, false)]

  // It happens with two requests and one refresh that fails.
  lemma {:induction false} DroppedWaiter()
    ensures Possible(START, DROPPED)
    ensures Run(START, DROPPED).requests.Keys == {0, 1}
    ensures Run(START, DROPPED).requests[0].fate == Settled
    ensures Run(START, DROPPED).requests[1] == Request(true, Waiter, 0, 0, Pending)
    ensures Run(START, DROPPED).refreshes == [Failed]
  {
    var es := DROPPED;
    StartInv();
    var s1 := Step(START, es[0]);
    StepKeepsInv(START, es[0]);
    assert es[1..][0] == es[1] && es[1..][1..] == [es[2]];
    assert s1 == State(true, [], map[0 := Request(true, Leader, 0, 0, Pending)], [InFlight]);
    var s2 := Step(s1, es[1]);
    StepKeepsInv(s1, es[1]);
    var s3 := Step(s2, es[2]);
    StepKeepsInv(s2, es[2]);
    hide Inv;
    assert [es[2]][1..] == [];
    assert Possible(s3, []) && Run(s3, []) == s3;
    assert Possible(s2, [es[2]]) && Run(s2, [es[2]]) == s3;
    assert Possible(s1, es[1..]) && Run(s1, es[1..]) == s3;
  }

  lemma {:induction false} StartInv()
    ensures Inv(START)
  {
  }

  // ---- The module variables and the interceptor that changes them ----

  class Client {
    var isRefreshing: bool
    var refreshSubscribers: seq<nat>
    var requests: map<nat, Request>
    var refreshes: seq<Outcome>

    ghost function Now(): State
      reads this
    {
      State(isRefreshing, refreshSubscribers, requests, refreshes)
    }

    constructor ()
      ensures Now() == START
    {
      isRefreshing, refreshSubscribers, requests, refreshes := false, [], map[], [];
    }

    method OnTokenRefreshed()
      requires KnownSubscribers(Now())
      modifies this
      ensures Now() == old(Now()).(requests := Notify(old(requests), old(refreshSubscribers)), refreshSubscribers := [])
    {
      var i := 0;
      while i < |refreshSubscribers|
        invariant 0 <= i <= |refreshSubscribers|
        invariant Now() == old(Now()).(requests := requests)
        invariant forall id | id in refreshSubscribers[i..] :: id in requests
        invariant Notify(requests, refreshSubscribers[i..]) == Notify(old(requests), old(refreshSubscribers))
      {
        var id := refreshSubscribers[i];
        assert refreshSubscribers[i..][0] == id && refreshSubscribers[i..][1..] == refreshSubscribers[i + 1..];
        requests := requests[id := Resend(requests[id])];
        i := i + 1;
      }
      refreshSubscribers := [];
    }

    method OnUnauthorized(id: nat, rebuildable: bool)
      requires KnownSubscribers(Now()) && Enabled(Now(), Unauthorized(id, rebuildable))
      requires isRefreshing ==> refreshes != []
      modifies this
      ensures Now() == Step(old(Now()), Unauthorized(id, rebuildable))
    {
      if isRefreshing {
        refreshSubscribers := refreshSubscribers + [id];
        requests := requests[id := Request(rebuildable, Waiter, |refreshes| - 1, 0, Pending)];
        return;
      }
      isRefreshing := true;
      requests := requests[id := Request(rebuildable, Leader, |refreshes|, 0, Pending)];
      refreshes := refreshes + [InFlight];
    }

    method OnRefreshAnswered(id: nat, ok: bool)
      requires KnownSubscribers(Now()) && Enabled(Now(), RefreshAnswered(id, ok))
      modifies this
      ensures Now() == Step(old(Now()), RefreshAnswered(id, ok))
    {
      if ok {
        NotifyDomain(requests, refreshSubscribers);
        isRefreshing := false;
        refreshes := refreshes[|refreshes| - 1 := Succeeded];
        OnTokenRefreshed();
        requests := requests[id := Resend(requests[id])];
      } else {
        isRefreshing := false;
        refreshSubscribers := [];
        refreshes := refreshes[|refreshes| - 1 := Failed];
        requests := requests[id := requests[id].(fate := Settled)];
      }
    }
  }
}
