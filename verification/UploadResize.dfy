// A session resumed by a run that cuts the file into chunks of another size.
module UploadResize {
  import opened Text
  import S = UploadServer
  import opened UploadClient
  import opened UploadTraces
  import opened UploadCancel

  // ---- Slots: which chunk the server takes slice i for ----

  function Slot(i: nat, r: nat, c: nat): nat
    requires c > 0
  {
    i * r / c
  }

  lemma {:induction false} SlotBounds(i: nat, r: nat, c: nat)
    requires c > 0
    ensures Slot(i, r, c) * c <= i * r < Slot(i, r, c) * c + c
  {
  }

  lemma {:induction false} SlotGrows(i: nat, j: nat, r: nat, c: nat)
    requires c > 0 && i <= j
    ensures Slot(i, r, c) <= Slot(j, r, c)
  {
    SlotBounds(i, r, c);
    SlotBounds(j, r, c);
    Later(i, j, r);
    Successor(Slot(j, r, c), c);
    hide Slot;
    BetweenMultiples(Slot(i, r, c), Slot(j, r, c) + 1, c, i * r);
  }

  // The slots of longer slices are all different.
  lemma {:induction false} SlotGrowsStrictly(i: nat, r: nat, c: nat)
    requires 0 < c <= r
    ensures Slot(i, r, c) < Slot(i + 1, r, c)
  {
    SlotBounds(i, r, c);
    SlotBounds(i + 1, r, c);
    Successor(i, r);
    Successor(Slot(i + 1, r, c), c);
    Successor(Slot(i, r, c), c);
    hide Slot;
    BetweenMultiples(Slot(i, r, c) + 1, Slot(i + 1, r, c) + 1, c, i * r + c);
  }

  lemma {:induction false} SlotInFile(i: nat, r: nat, c: nat, size: nat)
    requires c > 0 && i * r < size && S.Ceil(size, c) < 0x8000_0000
    ensures Slot(i, r, c) < S.Ceil(size, c) && S.AsI32(Slot(i, r, c)) == Slot(i, r, c)
  {
    SlotBounds(i, r, c);
    CeilBounds(size, c);
    hide Slot, S.Ceil;
    BetweenMultiples(Slot(i, r, c), S.Ceil(size, c), c, i * r);
  }

  // With shorter slices no slice reaches the last chunk.
  lemma {:induction false} SlotBehind(i: nat, r: nat, c: nat, total: nat)
    requires r < c && 0 < total && i < total && total > 1
    ensures Slot(i, r, c) < total - 1
  {
    SlotBounds(i, r, c);
    Later(i, total - 1, r);
    Shorter(total - 1, r, c);
    hide Slot;
    BetweenMultiples(Slot(i, r, c), total - 1, c, i * r);
  }

  // Slots that grow strictly and stay below total are the numbers themselves.
  lemma {:induction false} SlotsAreOwn(i: nat, r: nat, c: nat, total: nat)
    requires 0 < c <= r && i < total && Slot(total - 1, r, c) < total
    ensures Slot(i, r, c) == i
  {
    SlotAtLeast(i, r, c);
    SlotGap(i, total - 1, r, c);
  }

  lemma {:induction false} SlotAtLeast(i: nat, r: nat, c: nat)
    requires 0 < c <= r
    ensures i <= Slot(i, r, c)
  {
    hide Slot;
    if i > 0 {
      SlotAtLeast(i - 1, r, c);
      SlotGrowsStrictly(i - 1, r, c);
    }
  }

  lemma {:induction false} SlotGap(i: nat, j: nat, r: nat, c: nat)
    requires 0 < c <= r && i <= j
    ensures Slot(i, r, c) + (j - i) <= Slot(j, r, c)
    decreases j - i
  {
    hide Slot;
    if i < j {
      SlotGap(i, j - 1, r, c);
      SlotGrowsStrictly(j - 1, r, c);
    }
  }

  lemma {:induction false} BlobIs(job: Job, i: nat)
    ensures Blob(job, i) != [] <==> job.chunkSize > 0 && i * job.chunkSize < |job.file|
  {
  }

  // ---- A resumed run, and what the passed slices leave ----

  // What no step of a run changes.
  predicate Shape(w: World, r: nat, size: nat, c: nat, total: nat) {
    && c > 0 && total == S.Ceil(size, c) < 0x8000_0000
    && w.server.session.chunkSize == c
    && |w.server.session.chunks| == total
    && w.job.chunkSize == r && |w.job.file| == size && w.job.totalChunks == total
  }

  // A run at the loop head of chunk k, and a server with no chunk at work.
  ghost predicate Untroubled(w: World, k: nat, r: nat, size: nat, c: nat, total: nat) {
    && Shape(w, r, size, c, total)
    && w.pc == Loop(k) && k < total && !w.paused && !w.cancelled
    && S.Inv(w.server) && S.Clear(w.server)
  }

  // The same where the completed chunks are the first k, as they are when all runs
  // before used the session's chunk size.
  ghost predicate Prefixed(w: World, k: nat, r: nat, size: nat, c: nat, total: nat) {
    && Untroubled(w, k, r, size, c, total) && 1 <= k
    && (forall j | 0 <= j < k :: w.server.session.chunks[j] == S.Completed)
    && w.server.session.chunks[total - 1] == S.Pending
  }

  // No slice of a run from chunk k on is taken for chunk j.
  ghost predicate Missed(j: nat, k: nat, r: nat, c: nat, total: nat)
    requires c > 0
  {
    forall i: nat | k <= i < total :: Slot(i, r, c) != j
  }

  predicate Done(s: S.Server, j: int) {
    0 <= j < |s.session.chunks| && s.session.chunks[j] == S.Completed
  }

  // Slice i was answered: it was not empty, and the chunk it was taken for is complete.
  predicate Passed(w: World, i: nat, r: nat, size: nat, c: nat)
    requires c > 0
  {
    r > 0 && i * r < size && Done(w.server, Slot(i, r, c))
  }

  ghost predicate PassedUpTo(w: World, k: nat, i: nat, r: nat, size: nat, c: nat)
    requires c > 0
  {
    forall j: nat | k <= j < i :: Passed(w, j, r, size, c)
  }

  // The request on its way carries its slice; a good answer says that its chunk is
  // complete, and an empty slice has a bad one.
  predicate OnItsWay(w: World, i: nat, id: nat, r: nat, size: nat, c: nat)
    requires c > 0
  {
    && id in w.server.requests
    && (i * r < size ==> w.server.requests[id].index == Slot(i, r, c))
    && (w.server.requests[id].phase == S.Answered(true) ==> Done(w.server, w.server.requests[id].index))
    && (!(r > 0 && i * r < size) ==> w.server.requests[id].phase == S.Answered(false))
  }

  ghost predicate Passing(w: World, k: nat, r: nat, size: nat, c: nat, total: nat) {
    && S.Inv(w.server)
    && Shape(w, r, size, c, total)
    && match w.pc
       case Loop(i) => k <= i <= total && PassedUpTo(w, k, i, r, size, c)
       case Parked(i) => k <= i < total && PassedUpTo(w, k, i, r, size, c)
       case Backoff(i, _) => k <= i < total && PassedUpTo(w, k, i, r, size, c)
       case Sending(i, _, id) => k <= i < total && PassedUpTo(w, k, i, r, size, c) && OnItsWay(w, i, id, r, size, c)
       case Finalizing => PassedUpTo(w, k, total, r, size, c)
       case _ => true
  }

  lemma {:induction false} DoneStays(s: S.Server, e: S.Event, j: int)
    requires S.Enabled(s, e) && Done(s, j)
    ensures Done(S.Step(s, e), j)
  {
    S.ChunksAfter(s, e);
    hide S.Step;
  }

  lemma {:induction false} PassedStays(w: World, t: World, k: nat, i: nat, r: nat, size: nat, c: nat)
    requires c > 0 && PassedUpTo(w, k, i, r, size, c)
    requires forall j | Done(w.server, j) :: Done(t.server, j)
    ensures PassedUpTo(t, k, i, r, size, c)
  {
    forall j: nat | k <= j < i
      ensures Passed(t, j, r, size, c)
    {
      assert Passed(w, j, r, size, c);
    }
  }

  // A good answer comes from a complete chunk.
  lemma {:induction false} GoodAnswer(s: S.Server, e: S.Event, id: nat)
    requires S.Inv(s) && S.Enabled(s, e) && id in s.requests && !e.Receive?
    ensures id in S.Step(s, e).requests
    ensures S.Step(s, e).requests[id].index == s.requests[id].index
    ensures S.Step(s, e).requests[id].phase == S.Answered(true) ==>
              s.requests[id].phase == S.Answered(true) || Done(s, s.requests[id].index)
    ensures s.requests[id].phase.Answered? ==> S.Step(s, e).requests[id].phase == s.requests[id].phase
  {
    RequestStays(s, e, id);
    RequestAfter(s, e, id);
    if s.requests[id].phase.Answered? {
      AnswerStays(s, e, id);
    }
    assert S.RequestOk(s, s.requests[id]);
    hide S.Step, S.Enabled;
  }

  lemma {:induction false} AnswerStays(s: S.Server, e: S.Event, id: nat)
    requires S.Enabled(s, e) && id in s.requests && s.requests[id].phase.Answered?
    ensures id in S.Step(s, e).requests && S.Step(s, e).requests[id] == s.requests[id]
  {
    hide S.Patch;
  }

  lemma {:induction false} ServePasses(w: World, e: S.Event, k: nat, r: nat, size: nat, c: nat, total: nat)
    requires Passing(w, k, r, size, c, total) && S.Enabled(w.server, e) && !e.Receive?
    ensures Passing(w.(server := S.Step(w.server, e)), k, r, size, c, total)
  {
    var t := w.(server := S.Step(w.server, e));
    S.StepInv(w.server, e);
    ShapeKept(w.server, e);
    forall j | Done(w.server, j)
      ensures Done(t.server, j)
    {
      DoneStays(w.server, e, j);
    }
    if w.pc.Sending? {
      GoodAnswer(w.server, e, w.pc.id);
    }
    hide S.Step, S.Enabled, S.Inv, PassedUpTo, Done, S.Ceil;
    match w.pc
    case Loop(i) => PassedStays(w, t, k, i, r, size, c);
    case Parked(i) => PassedStays(w, t, k, i, r, size, c);
    case Backoff(i, _) => PassedStays(w, t, k, i, r, size, c);
    case Sending(i, _, _) => PassedStays(w, t, k, i, r, size, c);
    case Finalizing => PassedStays(w, t, k, total, r, size, c);
    case _ =>
  }

  lemma {:induction false} SentSlice(w: World, i: nat, attempt: nat, id: nat, r: nat, size: nat, c: nat, total: nat)
    requires Shape(w, r, size, c, total) && id !in w.server.requests
    ensures Attempt(w, i, attempt, id).server.session == w.server.session
    ensures Attempt(w, i, attempt, id).job == w.job
    ensures OnItsWay(Attempt(w, i, attempt, id), i, id, r, size, c)
  {
    BlobIs(w.job, i);
    if i * r < size {
      SlotInFile(i, r, c, size);
    }
    hide S.AsI32, Blob, S.Ceil;
  }

  lemma {:induction false} SendPasses(w: World, i: nat, attempt: nat, id: nat, k: nat, r: nat, size: nat, c: nat, total: nat)
    requires Passing(w, k, r, size, c, total) && id !in w.server.requests
    requires k <= i < total && PassedUpTo(w, k, i, r, size, c)
    ensures Passing(Attempt(w, i, attempt, id), k, r, size, c, total)
  {
    var t := Attempt(w, i, attempt, id);
    S.StepInv(w.server, Send(w, i, id));
    SentSlice(w, i, attempt, id, r, size, c, total);
    assert t.server == S.Step(w.server, Send(w, i, id)) && t.pc == Sending(i, attempt, id);
    PassedStays(w, t, k, i, r, size, c);
    hide Attempt, S.Step, S.Inv, PassedUpTo, OnItsWay, S.Ceil, Send;
  }

  lemma {:induction false} LocalPasses(w: World, e: Event, k: nat, r: nat, size: nat, c: nat, total: nat)
    requires Passing(w, k, r, size, c, total) && Enabled(w, e) && !e.Resume? && !Sends(w, e) && !e.Serve?
    ensures Passing(Local(w, e), k, r, size, c, total)
  {
    var t := Local(w, e);
    assert t.server == w.server && t.job == w.job;
    if w.pc.Loop? || w.pc.Parked? || w.pc.Backoff? || w.pc.Sending? {
      PassedStays(w, t, k, w.pc.i, r, size, c);
    }
    if w.pc.Finalizing? {
      PassedStays(w, t, k, total, r, size, c);
    }
    if e.Reply? {
      assert Passed(t, w.pc.i, r, size, c);
      PassedOneMore(t, k, w.pc.i, r, size, c);
    }
    hide S.Enabled, S.Inv, S.Ceil, Done, PassedUpTo;
  }

  lemma {:induction false} PassedOneMore(w: World, k: nat, i: nat, r: nat, size: nat, c: nat)
    requires c > 0 && PassedUpTo(w, k, i, r, size, c) && Passed(w, i, r, size, c)
    ensures PassedUpTo(w, k, i + 1, r, size, c)
  {
    forall j: nat | k <= j < i + 1
      ensures Passed(w, j, r, size, c)
    {
      assert j < i ==> Passed(w, j, r, size, c);
    }
  }

  lemma {:induction false} StepPasses(w: World, e: Event, k: nat, r: nat, size: nat, c: nat, total: nat)
    requires Passing(w, k, r, size, c, total) && Enabled(w, e) && !e.Resume?
    ensures Passing(Step(w, e), k, r, size, c, total)
  {
    if Sends(w, e) {
      PcAtSend(w, e, k, r, size, c, total);
      SendPasses(w, w.pc.i, if e.Retry? then w.pc.attempt + 1 else 0, e.id, k, r, size, c, total);
    } else if e.Serve? {
      ServePasses(w, e.e, k, r, size, c, total);
    } else {
      LocalPasses(w, e, k, r, size, c, total);
    }
    hide Passing, Attempt, Local, S.Step, S.Enabled;
  }

  lemma {:induction false} PcAtSend(w: World, e: Event, k: nat, r: nat, size: nat, c: nat, total: nat)
    requires Passing(w, k, r, size, c, total) && Enabled(w, e) && Sends(w, e)
    ensures k <= w.pc.i < total && PassedUpTo(w, k, w.pc.i, r, size, c)
  {
    hide PassedUpTo, S.Inv, S.Enabled, Done;
  }

  lemma {:induction false} RunPasses(w: World, events: seq<Event>, k: nat, r: nat, size: nat, c: nat, total: nat)
    requires Passing(w, k, r, size, c, total) && Possible(w, events) && NoResume(events)
    ensures Passing(Run(w, events), k, r, size, c, total)
    decreases |events|
  {
    hide Step, Enabled, Passing;
    if events != [] {
      StepPasses(w, events[0], k, r, size, c, total);
      RunPasses(Step(w, events[0]), events[1..], k, r, size, c, total);
    }
  }

  lemma {:induction false} DoneOverRun(w: World, events: seq<Event>, j: int)
    requires Possible(w, events) && Done(w.server, j)
    ensures Done(Run(w, events).server, j)
    decreases |events|
  {
    hide Step, Enabled, Done;
    if events != [] {
      DoneOverStep(w, events[0], j);
      DoneOverRun(Step(w, events[0]), events[1..], j);
    }
  }

  lemma {:induction false} DoneOverStep(w: World, e: Event, j: int)
    requires Enabled(w, e) && Done(w.server, j)
    ensures Done(Step(w, e).server, j)
  {
    hide S.Step, Done;
    if Sends(w, e) {
      DoneStays(w.server, Send(w, w.pc.i, e.id), j);
    } else if e.Serve? {
      DoneStays(w.server, e.e, j);
    }
  }

  // What a run that requests completion has behind it.
  lemma {:induction false} AtTheEnd(w: World, events: seq<Event>, k: nat, r: nat, size: nat, c: nat, total: nat)
    requires Untroubled(w, k, r, size, c, total) && Possible(w, events) && NoResume(events)
    requires Run(w, events).pc.Finalizing?
    ensures var t := Run(w, events);
            && r > 0 && (total - 1) * r < size
            && |t.server.session.chunks| == total
            && (forall j | 0 <= j < total && w.server.session.chunks[j] == S.Completed :: Done(t.server, j))
            && (forall i: nat | k <= i < total :: Done(t.server, Slot(i, r, c)))
  {
    hide Run, Possible, Step, Enabled, S.Inv, S.Ceil;
    StartsPassing(w, k, r, size, c, total);
    RunPasses(w, events, k, r, size, c, total);
    var t := Run(w, events);
    forall j | 0 <= j < total && w.server.session.chunks[j] == S.Completed
      ensures Done(t.server, j)
    {
      DoneOverRun(w, events, j);
    }
    hide Slot;
    assert Passed(t, total - 1, r, size, c);
    forall i: nat | k <= i < total
      ensures Done(t.server, Slot(i, r, c))
    {
      assert Passed(t, i, r, size, c);
    }
  }

  lemma {:induction false} StartsPassing(w: World, k: nat, r: nat, size: nat, c: nat, total: nat)
    requires Untroubled(w, k, r, size, c, total)
    ensures Passing(w, k, r, size, c, total)
  {
    hide S.Inv, S.Ceil;
  }

  // ---- The run that gets through ----

  lemma {:induction false} AboveAll(ids: set<nat>) returns (id: nat)
    ensures forall q | q in ids :: q < id
    decreases |ids|
  {
    if ids == {} {
      id := 0;
    } else {
      var q :| q in ids;
      var above := AboveAll(ids - {q});
      id := if q < above then above else q + 1;
      forall p | p in ids
        ensures p < id
      {
        assert p == q || p in ids - {q};
      }
    }
  }

  // Reached from w without trouble: at loop head i, the chunks that are missed as they were.
  ghost predicate Through(w: World, t: World, k: nat, i: nat, r: nat, size: nat, c: nat, total: nat) {
    && Shape(t, r, size, c, total)
    && t.pc == Loop(i) && !t.paused && !t.cancelled && S.Clear(t.server)
    && |w.server.session.chunks| == total && k <= i
    && forall j | 0 <= j < total && Missed(j, k, r, c, total) ::
         t.server.session.chunks[j] == w.server.session.chunks[j]
  }

  lemma {:induction false} SendsThrough(w: World, events: seq<Event>, t: World, k: nat, i: nat, r: nat, size: nat, c: nat, total: nat)
    returns (more: seq<Event>, u: World)
    requires Leads(w, events, t) && Through(w, t, k, i, r, size, c, total)
    requires i < total && r > 0 && (total - 1) * r < size
    ensures Leads(w, more, u) && Through(w, u, k, i + 1, r, size, c, total)
  {
    var id := AboveAll(t.server.requests.Keys);
    Later(i, total - 1, r);
    BlobIs(t.job, i);
    SlotInFile(i, r, c, size);
    DoSend(t, id);
    assert S.AsI32(i * t.job.chunkSize / t.server.session.chunkSize) == Slot(i, r, c);
    hide Leads, Step, Enabled, S.AsI32, Blob, Slot, S.Ceil;
    more, u := Go(w, events, t, Top(id));
    assert u.server.session == t.server.session && S.Clear(u.server);
    var v;
    more, v := Answers(w, more, u, id);
    u := u.(server := v);
    ReplyIs(u);
    more, u := Go(w, more, u, Reply);
  }

  lemma {:induction false} SendsAll(w: World, k: nat, i: nat, r: nat, size: nat, c: nat, total: nat)
    returns (events: seq<Event>, t: World)
    requires Untroubled(w, k, r, size, c, total) && k <= i <= total
    requires r > 0 && (total - 1) * r < size
    ensures Leads(w, events, t) && Through(w, t, k, i, r, size, c, total)
    decreases i
  {
    if i == k {
      events, t := [], w;
    } else {
      events, t := SendsAll(w, k, i - 1, r, size, c, total);
      events, t := SendsThrough(w, events, t, k, i - 1, r, size, c, total);
    }
  }

  lemma {:induction false} GetsThrough(w: World, k: nat, r: nat, size: nat, c: nat, total: nat)
    returns (events: seq<Event>, t: World)
    requires Untroubled(w, k, r, size, c, total) && r > 0 && (total - 1) * r < size
    ensures Leads(w, events, t) && t.pc.Finalizing? && S.Clear(t.server)
    ensures |t.server.session.chunks| == total == |w.server.session.chunks|
    ensures forall j | 0 <= j < total && Missed(j, k, r, c, total) ::
              t.server.session.chunks[j] == w.server.session.chunks[j]
  {
    events, t := SendsAll(w, k, total, r, size, c, total);
    var id := AboveAll(t.server.requests.Keys);
    FinishIs(t, id);
    hide Step, Enabled, Slot, S.Ceil, Leads, Missed, S.Clear;
    events, t := Go(w, events, t, Top(id));
  }

  // ---- When completion is requested, and when too early ----

  // A run can get as far as the completion request exactly when the last of its slices
  // still begins inside the file.
  lemma {:induction false} RequestsCompletionIff(w: World, k: nat, r: nat, size: nat, c: nat, total: nat)
    requires Untroubled(w, k, r, size, c, total)
    ensures (exists events :: Possible(w, events) && NoResume(events) && Run(w, events).pc.Finalizing?)
            <==> r > 0 && (total - 1) * r < size
  {
    if r > 0 && (total - 1) * r < size {
      var events, t := GetsThrough(w, k, r, size, c, total);
      assert Possible(w, events) && NoResume(events) && Run(w, events).pc.Finalizing?;
    }
    if events :| Possible(w, events) && NoResume(events) && Run(w, events).pc.Finalizing? {
      AtTheEnd(w, events, k, r, size, c, total);
    }
  }

  // A chunk that is still to come and that no slice is taken for.
  ghost predicate Overlooked(w: World, k: nat, r: nat, c: nat, total: nat)
    requires c > 0 && |w.server.session.chunks| == total
  {
    exists j: nat :: j < total && w.server.session.chunks[j] == S.Pending && Missed(j, k, r, c, total)
  }

  // A run that ends at the completion request with a chunk incomplete.
  ghost predicate Early(w: World, events: seq<Event>) {
    && Possible(w, events) && NoResume(events)
    && Run(w, events).pc.Finalizing? && !S.AllCompleted(Run(w, events).server)
  }

  // Completion can be requested too early exactly when it can be requested at all and
  // a pending chunk is overlooked.
  lemma {:induction false} RequestsEarlyIff(w: World, k: nat, r: nat, size: nat, c: nat, total: nat)
    requires Untroubled(w, k, r, size, c, total)
    ensures (exists events :: Early(w, events))
            <==> r > 0 && (total - 1) * r < size && Overlooked(w, k, r, c, total)
  {
    if r > 0 && (total - 1) * r < size && Overlooked(w, k, r, c, total) {
      var j: nat :| j < total && w.server.session.chunks[j] == S.Pending && Missed(j, k, r, c, total);
      var events, t := GetsThrough(w, k, r, size, c, total);
      assert t.server.session.chunks[j] == S.Pending;
      assert Early(w, events);
    }
    if events :| Early(w, events) {
      AtTheEnd(w, events, k, r, size, c, total);
      LeftOver(w, Run(w, events), k, r, size, c, total);
    }
  }

  lemma {:induction false} LeftOver(w: World, t: World, k: nat, r: nat, size: nat, c: nat, total: nat)
    requires Untroubled(w, k, r, size, c, total)
    requires |t.server.session.chunks| == total && !S.AllCompleted(t.server)
    requires forall j | 0 <= j < total && w.server.session.chunks[j] == S.Completed :: Done(t.server, j)
    requires forall i: nat | k <= i < total :: Done(t.server, Slot(i, r, c))
    ensures Overlooked(w, k, r, c, total)
  {
    hide Slot, S.Inv, S.Ceil;
    var j: nat :| j < total && t.server.session.chunks[j] != S.Completed;
    assert !Done(t.server, j);
    assert w.server.session.chunks[j] == S.Pending;
  }

  // A run that starts behind the last chunk has nothing to overlook.
  lemma {:induction false} AllCounted(s: S.Server)
    requires S.Inv(s) && s.session.completedChunks >= |s.session.chunks|
    ensures S.AllCompleted(s)
  {
    forall j: nat | j < |s.session.chunks|
      ensures s.session.chunks[j] == S.Completed
    {
      if s.session.chunks[j] != S.Completed {
        assert j !in s.counted;
        SubsetSize(s.counted + {j}, |s.session.chunks|);
        assert false;
      }
    }
  }

  // With the first k chunks complete and the last one untouched that is so exactly for
  // slices shorter than the session's chunks.
  lemma {:induction false} PrefixedEarlyIff(w: World, k: nat, r: nat, size: nat, c: nat, total: nat)
    requires Prefixed(w, k, r, size, c, total)
    ensures (exists events :: Early(w, events)) <==> 0 < r < c
  {
    RequestsEarlyIff(w, k, r, size, c, total);
    if 0 < r < c {
      ShorterMissesLast(w, k, r, size, c, total);
    } else if Overlooked(w, k, r, c, total) && r > 0 && (total - 1) * r < size {
      LongerMissesNone(w, k, r, size, c, total);
    }
  }

  lemma {:induction false} ShorterMissesLast(w: World, k: nat, r: nat, size: nat, c: nat, total: nat)
    requires Prefixed(w, k, r, size, c, total) && 0 < r < c
    ensures (total - 1) * r < size && Missed(total - 1, k, r, c, total) && Overlooked(w, k, r, c, total)
  {
    BoundAt(size, c, total - 1);
    Shorter(total - 1, r, c);
    forall i: nat | k <= i < total
      ensures Slot(i, r, c) != total - 1
    {
      SlotBehind(i, r, c, total);
    }
    hide Slot, S.Ceil, S.Inv;
  }

  lemma {:induction false} LongerMissesNone(w: World, k: nat, r: nat, size: nat, c: nat, total: nat)
    requires Prefixed(w, k, r, size, c, total) && c <= r && (total - 1) * r < size
    ensures !Overlooked(w, k, r, c, total)
  {
    SlotInFile(total - 1, r, c, size);
    forall j: nat | j < total && w.server.session.chunks[j] == S.Pending
      ensures !Missed(j, k, r, c, total)
    {
      SlotsAreOwn(j, r, c, total);
      assert k <= j;
    }
  }

  // Longer slices: no slice of the run holds a byte between the first k chunks and its
  // own first slice; with these k chunks complete, every chunk is marked complete all
  // the same when completion is requested.
  lemma {:induction false} LongerSlicesSkip(w: World, events: seq<Event>, k: nat, r: nat, size: nat, c: nat, total: nat)
    requires Untroubled(w, k, r, size, c, total) && r > c
    requires Possible(w, events) && NoResume(events) && Run(w, events).pc.Finalizing?
    ensures k >= 1 ==> k * c < k * r < size
    ensures forall b: nat | k * c <= b < k * r :: !Covered(b, k, total, r, size)
    ensures Prefixed(w, k, r, size, c, total) ==> S.AllCompleted(Run(w, events).server)
  {
    AtTheEnd(w, events, k, r, size, c, total);
    if Prefixed(w, k, r, size, c, total) {
      PrefixedEarlyIff(w, k, r, size, c, total);
      assert !Early(w, events);
    }
    hide Run, Possible, S.Ceil;
    if k >= 1 {
      Shorter(k, c, r);
    }
    Later(k, total - 1, r);
    forall b: nat | k * c <= b < k * r
      ensures !Covered(b, k, total, r, size)
    {
      forall i: nat | k <= i < total
        ensures !InSlice(b, i, r, size)
      {
        Later(k, i, r);
      }
    }
  }

  // ---- It happens to every file of two chunks or more ----

  // The session of a closed page, resumed with slices of r bytes.
  lemma {:induction false} ResumesAt(w: World, events: seq<Event>, t: World, file: seq<Octet>, c: nat, n: nat, r: nat)
    returns (more: seq<Event>, u: World)
    requires Possible(w, events) && Run(w, events) == t && TakenUpTo(t, file, c, n) && S.Inv(t.server)
    requires 1 <= n < S.Ceil(|file|, c) < 0x8000_0000
    ensures more == events + [Close] + [Resume(file, r)] && Possible(w, more) && Run(w, more) == u
    ensures Prefixed(u, n, r, |file|, c, S.Ceil(|file|, c))
    ensures u.server == t.server && u.saved
  {
    hide Run, Possible, Step, Enabled, S.Ceil, S.Inv;
    DoClose(t);
    more := Extend(w, events, Close);
    DoResume(t.(pc := Ended, referenced := false), file, r);
    more := Extend(w, more, Resume(file, r));
    u := Run(w, more);
  }

  // Whatever chunk a run left off at, one resumed with shorter slices can ask for
  // completion while the last chunk was never sent.
  lemma {:induction false} FinalizeTooEarly(file: seq<Octet>, c: nat, n: nat, r: nat)
    returns (before: seq<Event>, after: seq<Event>)
    requires Open(file, c).Some? && 1 <= n < S.Ceil(|file|, c) < 0x8000_0000 && 0 < r < c
    ensures var w := Open(file, c).value;
            var all := before + [Close] + [Resume(file, r)] + after;
            && NoResume(before) && NoResume(after) && Possible(w, all)
            && Run(w, all).pc.Finalizing?
            && |Run(w, all).server.session.chunks| == S.Ceil(|file|, c)
            && Run(w, all).server.session.chunks[S.Ceil(|file|, c) - 1] == S.Pending
  {
    var w := Open(file, c).value;
    var total := S.Ceil(|file|, c);
    var t, u;
    before, t := SendsUpTo(w, file, c, n);
    S.CreateInv(file, c);
    RunSound(w, before);
    var middle;
    middle, u := ResumesAt(w, before, t, file, c, n, r);
    ShorterMissesLast(u, n, r, |file|, c, total);
    after, t := GetsThrough(u, n, r, |file|, c, total);
    hide Run, Possible, Open, S.Ceil, TakenUpTo;
    RunSplit(w, middle, after);
  }

  // ---- Two resumes are enough to overlook a chunk with the session's own size ----

  // One slice that falls into a pending chunk, up to its answer.
  lemma {:induction false} SendsSlice(w: World, k: nat, r: nat, size: nat, c: nat, total: nat)
    returns (events: seq<Event>, t: World)
    requires Untroubled(w, k, r, size, c, total) && r > 0 && k * r < size
    requires Slot(k, r, c) < total && w.server.session.chunks[Slot(k, r, c)] == S.Pending
    ensures Leads(w, events, t) && S.Clear(t.server) && t.saved == w.saved
    ensures t.server.session.chunks == w.server.session.chunks[Slot(k, r, c) := S.Completed]
    ensures t.server.session.completedChunks == w.server.session.completedChunks + 1
    ensures w.server.session.status == S.InProgress ==> t.server.session.status == S.InProgress
    ensures t.server.session.chunkSize == w.server.session.chunkSize
    ensures t.server.session.declared == w.server.session.declared
    ensures t.server.session.totalChunks == w.server.session.totalChunks
  {
    var id := AboveAll(w.server.requests.Keys);
    BlobIs(w.job, k);
    SlotInFile(k, r, c, size);
    DoSend(w, id);
    assert S.AsI32(k * w.job.chunkSize / w.server.session.chunkSize) == Slot(k, r, c);
    assert Leads(w, [], w);
    hide Leads, Step, Enabled, S.AsI32, Blob, Slot, S.Ceil, S.Inv;
    events, t := Go(w, [], w, Top(id));
    var v;
    events, v := Answers(w, events, t, id);
    t := t.(server := v);
  }

  // A page that closes and resumes an untroubled session with slices of r bytes.
  lemma {:induction false} ReopensAt(t: World, file: seq<Octet>, r: nat, c: nat, total: nat)
    returns (u: World)
    requires S.Clear(t.server) && t.saved && t.server.session.status == S.InProgress && Sound(t)
    requires c > 0 && t.server.session.chunkSize == c && t.server.session.declared == file
    requires |t.server.session.chunks| == t.server.session.totalChunks == total == S.Ceil(|file|, c) < 0x8000_0000
    requires t.server.session.completedChunks < total
    ensures Possible(t, [Close] + [Resume(file, r)]) && Run(t, [Close] + [Resume(file, r)]) == u
    ensures Untroubled(u, t.server.session.completedChunks, r, |file|, c, total) && u.server == t.server && u.saved
  {
    assert Possible(t, []) && Run(t, []) == t;
    hide Run, Possible, Step, Enabled, S.Ceil, S.Inv;
    DoClose(t);
    var es := Extend(t, [], Close);
    DoResume(t.(pc := Ended, referenced := false), file, r);
    es := Extend(t, es, Resume(file, r));
    u := Run(t, es);
    assert es == [Close] + [Resume(file, r)];
  }

  function Resuming(file: seq<Octet>, r: nat): seq<Event> {
    [Close] + [Resume(file, r)]
  }

  lemma {:induction false} FourChunks(c: nat)
    requires c > 0
    ensures S.Ceil(4 * c, c) == 4 && Slot(1, 2 * c, c) == 2
    ensures Missed(1, 2, c, c, 4)
  {
    CeilBounds(4 * c, c);
    Quotients(4 * c + c - 1, c, 4);
    assert 1 * (2 * c) == 2 * c;
    DivideBack(2, c);
    forall i: nat | 2 <= i < 4
      ensures Slot(i, c, c) != 1
    {
      DivideBack(i, c);
    }
  }

  lemma {:induction false} Quotients(p: nat, c: nat, q: nat)
    requires c > 0 && q * c <= p < q * c + c
    ensures p / c == q
  {
    Successor(q, c);
    Successor(p / c, c);
    BetweenMultiples(q, p / c + 1, c, p);
    BetweenMultiples(p / c, q + 1, c, p);
  }

  // A session of four chunks that the page can go on with.
  predicate FourAt(t: World, file: seq<Octet>, c: nat, done: nat) {
    && S.Clear(t.server) && t.saved && t.server.session.status == S.InProgress
    && c > 0 && t.server.session.chunkSize == c && t.server.session.declared == file
    && |t.server.session.chunks| == t.server.session.totalChunks == 4
    && t.server.session.completedChunks == done
    && t.server.session.chunks[1] == S.Pending
    && (done == 1 ==> t.server.session.chunks[2] == S.Pending)
  }

  lemma {:induction false} FirstOfFour(file: seq<Octet>, c: nat) returns (first: seq<Event>, u: World)
    requires Open(file, c).Some? && |file| == 4 * c
    ensures var w := Open(file, c).value;
            && NoResume(first) && Possible(w, first + Resuming(file, 2 * c))
            && Run(w, first + Resuming(file, 2 * c)) == u
    ensures c > 0 && FourAt(u, file, c, 1) && Untroubled(u, 1, 2 * c, 4 * c, c, 4)
  {
    var w := Open(file, c).value;
    var t;
    FourChunks(c);
    S.CreateInv(file, c);
    first, t := SendsUpTo(w, file, c, 1);
    RunSound(w, first);
    assert FourAt(t, file, c, 1) by { TakenIsFour(t, file, c); }
    hide Run, Possible, Open, S.Ceil, TakenUpTo, Slot, Missed;
    u := ReopensAt(t, file, 2 * c, c, 4);
    RunSplit(w, first, Resuming(file, 2 * c));
    assert u.saved;
  }

  lemma {:induction false} TakenIsFour(t: World, file: seq<Octet>, c: nat)
    requires TakenUpTo(t, file, c, 1) && S.Ceil(|file|, c) == 4
    ensures FourAt(t, file, c, 1)
  {
    hide S.Ceil;
  }

  lemma {:induction false} ThirdOfFour(w: World, before: seq<Event>, u: World, file: seq<Octet>, c: nat)
    returns (second: seq<Event>, v: World)
    requires Sound(w) && Possible(w, before) && Run(w, before) == u && |file| == 4 * c
    requires FourAt(u, file, c, 1) && Untroubled(u, 1, 2 * c, 4 * c, c, 4)
    ensures NoResume(second) && Possible(w, before + second + Resuming(file, c))
    ensures Run(w, before + second + Resuming(file, c)) == v
    ensures FourAt(v, file, c, 2) && Untroubled(v, 2, c, 4 * c, c, 4)
  {
    var t;
    FourChunks(c);
    second, t := SendsSlice(u, 1, 2 * c, 4 * c, c, 4);
    hide Run, Possible, S.Ceil, Slot, Missed;
    RunSplit(w, before, second);
    RunSound(w, before + second);
    assert FourAt(t, file, c, 2);
    v := ReopensAt(t, file, c, c, 4);
    RunSplit(w, before + second, Resuming(file, c));
    assert v.saved;
  }

  // Four chunks: the first is sent, a run with twice the size sends the third, and a
  // run with the session's own size goes on at the counter. It requests completion
  // with the second chunk never sent.
  lemma {:induction false} ResumedTwice(file: seq<Octet>, c: nat)
    returns (first: seq<Event>, second: seq<Event>, third: seq<Event>)
    requires Open(file, c).Some? && |file| == 4 * c
    ensures var w := Open(file, c).value;
            var all := first + Resuming(file, 2 * c) + second + Resuming(file, c) + third;
            && NoResume(first) && NoResume(second) && NoResume(third)
            && Possible(w, all) && Run(w, all).pc.Finalizing?
            && |Run(w, all).server.session.chunks| == 4 && Run(w, all).server.session.chunks[1] == S.Pending
  {
    var w := Open(file, c).value;
    var u, v, t;
    FourChunks(c);
    S.CreateInv(file, c);
    first, u := FirstOfFour(file, c);
    hide Run, Possible, Open, S.Ceil, Slot, Missed, Untroubled;
    var es := first + Resuming(file, 2 * c);
    second, v := ThirdOfFour(w, es, u, file, c);
    third, t := GetsThrough(v, 2, c, 4 * c, c, 4);
    RunSplit(w, es + second + Resuming(file, c), third);
  }
}
