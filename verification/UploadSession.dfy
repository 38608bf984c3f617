// What the session row says of an upload, and when a completion is bound to succeed or
// to fail, over whole runs of the server.
module UploadSession {
  import opened Text
  import opened UploadServer

  // ---- A new session ----

  lemma {:induction false} AsI32Is(n: int)
    ensures -0x8000_0000 <= AsI32(n) < 0x8000_0000
    ensures (AsI32(n) - n) % 0x1_0000_0000 == 0
  {
  }

  // A session is created exactly for a nonempty file and a chunk size from 1 MB to
  // 256 MB; it has one pending row for each chunk and nothing received.
  lemma {:induction false} CreatedIff(declared: seq<Octet>, chunkSize: nat)
    ensures Create(declared, chunkSize).Some? <==> declared != [] && 1_048_576 <= chunkSize <= 268_435_456
    ensures Create(declared, chunkSize).Some? ==>
              var s := Create(declared, chunkSize).value;
              && s.session.declared == declared && s.session.chunkSize == chunkSize
              && s.session.status == New && s.session.completedChunks == 0 && s.session.bytesReceived == 0
              && s.temp.Some? && |s.temp.value| == |declared|
              && !s.verified && !s.mismatched && s.artifact == None && s.requests == map[]
              && (forall i | 0 <= i < |s.session.chunks| :: s.session.chunks[i] == Pending)
              && (|declared| <= 0x7FFF_FFFF * chunkSize ==>
                    && 0 <= (|s.session.chunks| - 1) * chunkSize < |declared| <= |s.session.chunks| * chunkSize
                    && s.session.totalChunks == |s.session.chunks|)
  {
    if declared != [] && MIN_CHUNK_SIZE <= chunkSize <= MAX_CHUNK_SIZE {
      RowsCover(|declared|, chunkSize);
    }
    hide Ceil;
  }

  lemma {:induction false} RowsCover(size: nat, c: nat)
    requires size > 0 && c > 0
    ensures 0 <= (Ceil(size, c) - 1) * c < size <= Ceil(size, c) * c
    ensures size <= 0x7FFF_FFFF * c ==> 0 < Ceil(size, c) <= 0x7FFF_FFFF
  {
    var q := Ceil(size, c);
    assert q * c <= size + c - 1 < q * c + c;
    assert (q - 1) * c == q * c - c;
    hide Ceil;
    assert q <= 0 ==> q * c <= 0;
    assert q > 0x7FFF_FFFF ==> (q - 0x8000_0000) * c >= 0;
    assert (q - 1) * c >= 0;
  }

  // ---- The counters ----

  // The bytes of the requests that a run counts.
  function BytesCounted(s: Server, events: seq<Event>): nat
    requires Possible(s, events)
    decreases |events|
  {
    if events == [] then 0
    else (if events[0].Count? then |s.requests[events[0].id].data| else 0)
         + BytesCounted(Step(s, events[0]), events[1..])
  }

  function CountSteps(events: seq<Event>): nat {
    if events == [] then 0 else (if events[0].Count? then 1 else 0) + CountSteps(events[1..])
  }

  lemma {:induction false} CountersAfter(s: Server, e: Event)
    requires Enabled(s, e)
    ensures e.Count? ==> e.id in s.requests
    ensures Step(s, e).session.completedChunks == s.session.completedChunks + if e.Count? then 1 else 0
    ensures Step(s, e).session.bytesReceived ==
            s.session.bytesReceived + if e.Count? then |s.requests[e.id].data| else 0
  {
    hide Patch;
  }

  // The counters add up what the run counted.
  lemma {:induction false} CountersAddUp(s: Server, events: seq<Event>)
    requires Possible(s, events)
    ensures Run(s, events).session.completedChunks == s.session.completedChunks + CountSteps(events)
    ensures Run(s, events).session.bytesReceived == s.session.bytesReceived + BytesCounted(s, events)
    decreases |events|
  {
    hide Step;
    if events != [] {
      CountersAfter(s, events[0]);
      hide Enabled;
      CountersAddUp(Step(s, events[0]), events[1..]);
    }
  }

  // The bytes of chunk i, and of the chunks below n that are in a set.
  function Length(size: nat, c: nat, i: nat): nat {
    if i * c >= size then 0 else Min(c, size - i * c)
  }

  ghost function LengthOf(done: set<nat>, size: nat, c: nat, n: nat): nat {
    if n == 0 then 0
    else LengthOf(done, size, c, n - 1) + if n - 1 in done then Length(size, c, n - 1) else 0
  }

  lemma {:induction false} OneMore(done: set<nat>, size: nat, c: nat, n: nat, i: nat)
    requires i !in done
    ensures LengthOf(done + {i}, size, c, n) == LengthOf(done, size, c, n) + if i < n then Length(size, c, i) else 0
  {
    hide Length;
    if n > 0 {
      OneMore(done, size, c, n - 1, i);
    }
  }

  // A set that misses a chunk misses its bytes.
  lemma {:induction false} LengthBound(done: set<nat>, size: nat, c: nat, n: nat)
    requires c > 0 && (n - 1) * c < size
    ensures LengthOf(done, size, c, n) <= Min(n * c, size)
    ensures LengthOf(done, size, c, n) == Min(n * c, size) <==> forall i: nat | i < n :: i in done
  {
    if n > 0 {
      assert (n - 1) * c == n * c - c && (n - 2) * c == n * c - 2 * c;
      LengthBound(done, size, c, n - 1);
      assert (forall i: nat | i < n :: i in done) <==> n - 1 in done && forall i: nat | i < n - 1 :: i in done;
      assert Length(size, c, n - 1) == Min(n * c, size) - Min((n - 1) * c, size) > 0;
    } else {
      assert n * c == 0;
    }
  }

  // Every request that arrives carries one of the session's chunks.
  predicate WholeChunk(size: nat, c: nat, e: Event) {
    e.Receive? ==> c > 0 && e.offset % c == 0 && e.offset < size && |e.data| == Length(size, c, e.offset / c)
  }

  predicate WholeChunks(size: nat, c: nat, events: seq<Event>) {
    forall i | 0 <= i < |events| :: WholeChunk(size, c, events[i])
  }

  ghost predicate Accounts(s: Server, size: nat, c: nat) {
    && Inv(s) && |s.session.declared| == size && s.session.chunkSize == c
    && (forall id | id in s.requests && InRange(s, s.requests[id]) ::
          |s.requests[id].data| == Length(size, c, s.requests[id].index))
    && s.session.bytesReceived == LengthOf(s.counted, size, c, |s.session.chunks|)
  }

  lemma {:induction false} RequestFrom(s: Server, e: Event, id: nat)
    requires Enabled(s, e) && id in Step(s, e).requests
    ensures if e.Receive? && e.id == id
            then Step(s, e).requests[id].data == e.data
                 && Step(s, e).requests[id].index == AsI32(e.offset / s.session.chunkSize)
            else id in s.requests && Step(s, e).requests[id].data == s.requests[id].data
                 && Step(s, e).requests[id].index == s.requests[id].index
  {
    hide Patch;
  }

  lemma {:induction false} ShapeKept(s: Server, e: Event)
    requires Enabled(s, e)
    ensures Step(s, e).session.declared == s.session.declared
    ensures Step(s, e).session.chunkSize == s.session.chunkSize > 0
    ensures |Step(s, e).session.chunks| == |s.session.chunks|
  {
    hide Patch;
  }

  lemma {:induction false} IndexIs(offset: nat, c: nat, size: nat)
    requires c > 0 && offset % c == 0 && offset < size <= 0x7FFF_FFFF * c
    ensures AsI32(offset / c) == offset / c
  {
    var q := offset / c;
    assert q * c == offset;
    assert q >= 0x7FFF_FFFF ==> (q - 0x7FFF_FFFF) * c >= 0;
  }

  lemma {:induction false} StepAccounts(s: Server, e: Event, size: nat, c: nat)
    requires Accounts(s, size, c) && Enabled(s, e) && WholeChunk(size, c, e) && size <= 0x7FFF_FFFF * c
    ensures Accounts(Step(s, e), size, c)
  {
    var t := Step(s, e);
    StepInv(s, e);
    ShapeKept(s, e);
    CountersAfter(s, e);
    CountAfter(s, e);
    CountedWas(s, e);
    if e.Receive? {
      IndexIs(e.offset, c, size);
    }
    hide Step, Enabled, Inv, AsI32, Length;
    forall id | id in t.requests && InRange(t, t.requests[id])
      ensures |t.requests[id].data| == Length(size, c, t.requests[id].index)
    {
      RequestFrom(s, e, id);
    }
    if e.Count? {
      OneMore(s.counted, size, c, |s.session.chunks|, s.requests[e.id].index);
    }
  }

  // A chunk is counted once, and is one of the session's.
  lemma {:induction false} CountedWas(s: Server, e: Event)
    requires Inv(s) && Enabled(s, e)
    ensures e.Count? ==> e.id in s.requests && InRange(s, s.requests[e.id]) && s.requests[e.id].index !in s.counted
  {
    if e.Count? {
      assert RequestOk(s, s.requests[e.id]);
    }
    hide Exclusive, CountOk, StoredOk;
  }

  lemma {:induction false} RunAccounts(s: Server, events: seq<Event>, size: nat, c: nat)
    requires Accounts(s, size, c) && Possible(s, events) && WholeChunks(size, c, events) && size <= 0x7FFF_FFFF * c
    ensures Accounts(Run(s, events), size, c)
    ensures |Run(s, events).session.chunks| == |s.session.chunks|
    decreases |events|
  {
    hide Accounts, Step, Enabled, WholeChunk;
    if events != [] {
      assert WholeChunk(size, c, events[0]);
      assert forall i | 0 <= i < |events[1..]| :: events[1..][i] == events[i + 1];
      StepAccounts(s, events[0], size, c);
      ShapeKept(s, events[0]);
      RunAccounts(Step(s, events[0]), events[1..], size, c);
    }
  }

  lemma {:induction false} AllOfThem(done: set<nat>, n: nat)
    requires forall i | i in done :: i < n
    ensures |done| <= n
    ensures |done| == n <==> forall i: nat | i < n :: i in done
  {
    if n == 0 {
      assert done == {};
    } else {
      var less := done - {n - 1};
      AllOfThem(less, n - 1);
      assert (forall i: nat | i < n :: i in done) <==> n - 1 in done && forall i: nat | i < n - 1 :: i in less;
      assert |done| == |less| + if n - 1 in done then 1 else 0;
    }
  }

  lemma {:induction false} Settled(s: Server, size: nat, c: nat)
    requires Accounts(s, size, c) && c > 0 && size > 0
    requires 0 <= (|s.session.chunks| - 1) * c < size <= |s.session.chunks| * c
    ensures s.session.bytesReceived <= size && s.session.completedChunks <= |s.session.chunks|
    ensures s.session.bytesReceived == size <==> s.session.completedChunks == |s.session.chunks|
  {
    assert CountOk(s);
    LengthBound(s.counted, size, c, |s.session.chunks|);
    AllOfThem(s.counted, |s.session.chunks|);
  }

  // Whatever requests of whole chunks arrive, in whatever order, repeated, raced,
  // dropped or retried: no byte is counted twice, and all bytes of the file are counted
  // exactly when all chunks are.
  lemma {:induction false} ReceivedInFullIff(declared: seq<Octet>, chunkSize: nat, events: seq<Event>)
    requires Create(declared, chunkSize).Some? && Possible(Create(declared, chunkSize).value, events)
    requires |declared| <= 0x7FFF_FFFF * chunkSize && WholeChunks(|declared|, chunkSize, events)
    ensures var t := Run(Create(declared, chunkSize).value, events).session;
            && t.bytesReceived <= |declared| && t.completedChunks <= |t.chunks|
            && (t.bytesReceived == |declared| <==> t.completedChunks == |t.chunks|)
  {
    var s := Create(declared, chunkSize).value;
    CreatedIff(declared, chunkSize);
    CreateInv(declared, chunkSize);
    hide Create, Inv, Enabled, Step, Possible, Run;
    NoneCounted(s, |declared|, chunkSize);
    RunAccounts(s, events, |declared|, chunkSize);
    hide Accounts;
    Settled(Run(s, events), |declared|, chunkSize);
  }

  lemma {:induction false} NoneCounted(s: Server, size: nat, c: nat)
    requires Inv(s) && s.requests == map[] && s.session.completedChunks == 0 && s.session.bytesReceived == 0
    requires |s.session.declared| == size && s.session.chunkSize == c
    ensures Accounts(s, size, c)
  {
    assert s.counted == {};
    NothingIn(size, c, |s.session.chunks|);
  }

  lemma {:induction false} NothingIn(size: nat, c: nat, n: nat)
    ensures LengthOf({}, size, c, n) == 0
  {
    if n > 0 {
      NothingIn(size, c, n - 1);
    }
  }

  // ---- A session that is over ----

  // Before the server has looked at the session for it, or refused.
  predicate NotAdmitted(s: Server, id: nat) {
    id in s.requests ==> s.requests[id].phase == Sent || s.requests[id].phase == Answered(false)
  }

  lemma {:induction false} StepOver(s: Server, e: Event, id: nat)
    requires Enabled(s, e) && !Live(s) && !s.mismatched && NotAdmitted(s, id)
    ensures !Live(Step(s, e)) && !Step(s, e).mismatched && NotAdmitted(Step(s, e), id)
  {
    hide Patch;
  }

  // Once a session is completed or cancelled, and no completion is about to record a
  // wrong digest, it stays so, and no request that comes later, or waits to be looked
  // at, is taken.
  lemma {:induction false} OverStaysOver(s: Server, events: seq<Event>, id: nat)
    requires Possible(s, events)
    requires s.session.status == Finished || s.session.status == Cancelled
    requires !s.mismatched && NotAdmitted(s, id)
    ensures var t := Run(s, events);
            && (t.session.status == Finished || t.session.status == Cancelled)
            && NotAdmitted(t, id)
    decreases |events|
  {
    hide Step, Enabled;
    if events != [] {
      StepOver(s, events[0], id);
      OverStaysOver(Step(s, events[0]), events[1..], id);
    }
  }

  // A session that is over is open again after some run exactly if a completion that
  // found a wrong digest has yet to record it.
  lemma {:induction false} ReopensIff(s: Server)
    requires s.session.chunkSize > 0 && (s.session.status == Finished || s.session.status == Cancelled)
    ensures (exists events :: Possible(s, events) && Live(Run(s, events))) <==> s.mismatched
  {
    if s.mismatched {
      FailReopens(s);
      hide Possible, Run, Live;
      assert Possible(s, [Fail]) && Live(Run(s, [Fail]));
    } else if events :| Possible(s, events) && Live(Run(s, events)) {
      FreshIdentifier(s);
      var id :| id !in s.requests;
      OverStaysOver(s, events, id);
    }
  }

  lemma {:induction false} FailReopens(s: Server)
    requires s.session.chunkSize > 0 && s.mismatched
    ensures Possible(s, [Fail]) && Live(Run(s, [Fail]))
  {
    assert [Fail][1..] == [];
    assert Step(s, Fail).session.status == Failed;
  }

  lemma {:induction false} FreshIdentifier(s: Server)
    ensures exists id: nat :: id !in s.requests
  {
    var n := Above(s.requests.Keys);
    assert n !in s.requests;
  }

  lemma {:induction false} Above(ids: set<nat>) returns (n: nat)
    ensures forall id | id in ids :: id < n
    decreases |ids|
  {
    if ids == {} {
      n := 0;
    } else {
      var id :| id in ids;
      n := Above(ids - {id});
      n := if id < n then n else id + 1;
      assert forall k | k in ids :: k == id || k in ids - {id};
    }
  }

  // ---- What the status says ----

  predicate StatusTells(s: Session) {
    && (s.status == New ==> s.completedChunks == 0)
    && (s.status == InProgress ==> s.completedChunks > 0)
  }

  lemma {:induction false} StepTells(s: Server, e: Event)
    requires Enabled(s, e) && StatusTells(s.session)
    ensures StatusTells(Step(s, e).session)
  {
    hide Patch;
  }

  // In every run: a session that the client finds in progress has a chunk to resume
  // behind, and one that is still new has none.
  lemma {:induction false} InProgressHasChunks(declared: seq<Octet>, chunkSize: nat, events: seq<Event>)
    requires Create(declared, chunkSize).Some? && Possible(Create(declared, chunkSize).value, events)
    ensures StatusTells(Run(Create(declared, chunkSize).value, events).session)
  {
    CreatedIff(declared, chunkSize);
    hide Create;
    RunTells(Create(declared, chunkSize).value, events);
  }

  lemma {:induction false} RunTells(s: Server, events: seq<Event>)
    requires Possible(s, events) && StatusTells(s.session)
    ensures StatusTells(Run(s, events).session)
    decreases |events|
  {
    if events != [] {
      StepTells(s, events[0]);
      hide Step, Enabled, StatusTells;
      RunTells(Step(s, events[0]), events[1..]);
    }
  }

  // ---- What a completion comes to ----

  // All rows are complete, nobody is at work, and nothing is stored.
  ghost predicate Complete(s: Server) {
    && Inv(s) && AllCompleted(s) && s.artifact == None
  }

  lemma {:induction false} NobodyWrites(s: Server, id: nat)
    requires Inv(s) && AllCompleted(s) && id in s.requests
    ensures !s.requests[id].phase.Claimed? && !s.requests[id].phase.Written?
  {
    assert RequestOk(s, s.requests[id]);
    hide Exclusive, CountOk, StoredOk;
  }

  lemma {:induction false} StepComplete(s: Server, e: Event)
    requires Complete(s) && Enabled(s, e) && s.temp != Some(s.session.declared)
    ensures Complete(Step(s, e)) && Step(s, e).temp != Some(Step(s, e).session.declared)
  {
    StepInv(s, e);
    ShapeKept(s, e);
    if e.Write? || e.Tear? || e.Mark? {
      NobodyWrites(s, e.id);
    }
    assert StoredOk(s);
    hide Inv, Patch;
  }

  lemma {:induction false} NeverStored(s: Server, events: seq<Event>)
    requires Complete(s) && Possible(s, events) && s.temp != Some(s.session.declared)
    ensures Run(s, events).artifact == None
    decreases |events|
  {
    if events != [] {
      hide Complete, Enabled, Step;
      StepComplete(s, events[0]);
      NeverStored(Step(s, events[0]), events[1..]);
    }
  }

  lemma {:induction false} Completes(s: Server) returns (events: seq<Event>)
    requires s.session.chunkSize > 0 && Live(s) && AllCompleted(s) && s.temp == Some(s.session.declared)
    ensures events == [Verify] + [Finish] + [Store]
    ensures Possible(s, events) && Run(s, events).artifact == s.temp && Run(s, events).temp == None
    ensures Run(s, events).session.status == Finished
  {
    CompleteIs(s);
    events := [];
    assert Possible(s, events) && Run(s, events) == s;
    hide Possible, Run, Step, Enabled, Live, AllCompleted;
    events := Extend(s, events, Verify);
    events := Extend(s, events, Finish);
    events := Extend(s, events, Store);
  }

  // With all chunks in, whether a completion can still store the file depends on the
  // temporary file alone: no later request can repair a wrong one, or spoil a right one.
  lemma {:induction false} StorableIff(s: Server)
    requires Complete(s) && Live(s)
    ensures (exists events :: Possible(s, events) && Run(s, events).artifact.Some?) <==> s.temp == Some(s.session.declared)
  {
    if s.temp == Some(s.session.declared) {
      var events := Completes(s);
      assert Possible(s, events) && Run(s, events).artifact.Some?;
    } else if events :| Possible(s, events) && Run(s, events).artifact.Some? {
      NeverStored(s, events);
    }
  }

  // The completion of a file with another digest ends with the session failed, and one
  // of a file of another size, or of a file that is gone, with nothing changed.
  lemma {:induction false} WrongDigestFails(s: Server)
    requires s.session.chunkSize > 0 && Live(s) && AllCompleted(s) && s.temp != Some(s.session.declared)
    requires !s.verified && !s.mismatched
    ensures Possible(s, [Verify, Fail]) <==> s.temp.Some? && |s.temp.value| == |s.session.declared|
    ensures Possible(s, [Verify, Fail]) ==> Run(s, [Verify, Fail]).session == s.session.(status := Failed)
    ensures Possible(s, [Verify]) && !Possible(s, [Verify, Finish]) && !Possible(s, [Verify, Store])
    ensures !Possible(s, [Verify, Fail]) ==> Run(s, [Verify]) == s
  {
    var t := Step(s, Verify);
    hide AllCompleted;
    assert [Verify, Fail][1..] == [Fail] && [Verify, Finish][1..] == [Finish] && [Verify, Store][1..] == [Store];
  }

  // After a cancellation the temporary file is gone for good, and nothing is stored.
  lemma {:induction false} CancelledStoresNothing(s: Server, events: seq<Event>)
    requires Possible(s, [Cancel] + events)
    ensures Run(s, [Cancel] + events).temp == None && Run(s, [Cancel] + events).artifact == s.artifact
  {
    assert ([Cancel] + events)[1..] == events;
    assert Step(s, Cancel).temp == None && Step(s, Cancel).artifact == s.artifact;
    FileStaysGone(Step(s, Cancel), events);
  }

  lemma {:induction false} FileStaysGone(s: Server, events: seq<Event>)
    requires Possible(s, events) && s.temp == None
    ensures Run(s, events).temp == None && Run(s, events).artifact == s.artifact
    decreases |events|
  {
    if events != [] {
      StepGone(s, events[0]);
      hide Step, Enabled;
      FileStaysGone(Step(s, events[0]), events[1..]);
    }
  }

  lemma {:induction false} StepGone(s: Server, e: Event)
    requires Enabled(s, e) && s.temp == None
    ensures Step(s, e).temp == None && Step(s, e).artifact == s.artifact
  {
  }
}
