// The chunked-upload hook of the web client against one server session. An upload may
// fail, be closed, paused or cancelled, and be resumed by later runs; requests of
// earlier attempts and runs may still be on their way.
module UploadClient {
  import opened Text
  import S = UploadServer

  const MAX_CHUNK_RETRIES: nat := 3

  // What one call of `upload` works with once the session is chosen.
  datatype Job = Job(file: seq<Octet>, chunkSize: nat, totalChunks: int)

  datatype Pc =
    | Ended
    | Loop(i: nat)
    | Parked(i: nat)
    | Sending(i: nat, attempt: nat, id: nat)
    | Backoff(i: nat, attempt: nat)
    | Finalizing
    | Reported

  // `saved` is the localStorage entry, `referenced` sessionIdRef.
  datatype World = World(
    server: S.Server,
    job: Job,
    pc: Pc,
    paused: bool,
    cancelled: bool,
    saved: bool,
    referenced: bool)

  datatype Event =
    | Resume(file: seq<Octet>, chunkSize: nat)
    | Top(id: nat)
    | Unpark(id: nat)
    | Reply
    | Failure(expired: bool)
    | Retry(id: nat)
    | FinalReply(ok: bool)
    | Pause
    | Unpause
    | CancelUpload
    | Close
    | Serve(e: S.Event)

  // file.slice(start, end) of the loop body.
  function Blob(job: Job, i: nat): seq<Octet> {
    var start := i * job.chunkSize;
    var end := Min(start + job.chunkSize, |job.file|);
    if start <= end then job.file[start..end] else []
  }

  function Send(w: World, i: nat, id: nat): S.Event {
    S.Receive(id, i * w.job.chunkSize, Blob(w.job, i))
  }

  predicate Stopped(pc: Pc) {
    pc.Ended? || pc.Reported?
  }

  // The session is resumed when the server still reports it as in progress and its
  // size is that of the chosen file.
  predicate CanResume(w: World, file: seq<Octet>) {
    && Stopped(w.pc) && w.saved
    && w.server.session.status == S.InProgress
    && |w.server.session.declared| == |file|
  }

  predicate Enabled(w: World, e: Event) {
    w.server.session.chunkSize > 0 &&
    match e
    case Resume(file, _) => CanResume(w, file)
    case Top(id) => w.pc.Loop? && id !in w.server.requests
    case Unpark(id) => w.pc.Parked? && (!w.paused || w.cancelled) && id !in w.server.requests
    case Reply => w.pc.Sending? && S.At(w.server, w.pc.id, S.Answered(true))
    case Failure(_) => w.pc.Sending?
    case Retry(id) => w.pc.Backoff? && id !in w.server.requests
    case FinalReply(ok) => w.pc.Finalizing? && (ok ==> w.server.artifact.Some?)
    case Pause => w.pc.Loop? || w.pc.Sending? || w.pc.Backoff?
    case Unpause => w.paused
    case CancelUpload => true
    case Close => true
    case Serve(e) => S.Enabled(w.server, e) && !e.Receive?
  }

  function Attempt(w: World, i: nat, attempt: nat, id: nat): World
    requires w.server.session.chunkSize > 0 && id !in w.server.requests
  {
    w.(server := S.Step(w.server, Send(w, i, id)), pc := Sending(i, attempt, id))
  }

  // The steps that send a chunk: the loop head when nothing holds it back, the end of
  // a pause, and a retry, which asks for neither pause nor cancellation.
  predicate Sends(w: World, e: Event)
    requires Enabled(w, e)
  {
    match e
    case Top(_) => w.pc.i < w.job.totalChunks && !w.cancelled && !w.paused
    case Unpark(_) => !w.cancelled
    case Retry(_) => true
    case _ => false
  }

  function Step(w: World, e: Event): World
    requires Enabled(w, e)
  {
    if Sends(w, e) then Attempt(w, w.pc.i, if e.Retry? then w.pc.attempt + 1 else 0, e.id)
    else if e.Serve? then w.(server := S.Step(w.server, e.e))
    else Local(w, e)
  }

  // The steps of the page alone.
  function Local(w: World, e: Event): World
    requires Enabled(w, e) && !Sends(w, e) && !e.Serve?
  {
    match e
    case Resume(file, chunkSize) =>
      World(w.server, Job(file, chunkSize, w.server.session.totalChunks),
            Loop(w.server.session.completedChunks), false, false, true, true)
    case Top(_) =>
      if w.pc.i >= w.job.totalChunks then w.(pc := Finalizing)
      else if w.cancelled then w.(pc := Ended)
      else w.(pc := Parked(w.pc.i))
    case Unpark(_) => w.(pc := Ended)
    case Reply => w.(pc := Loop(w.pc.i + 1))
    case Failure(expired) =>
      if expired then w.(pc := Ended, saved := false, referenced := false)
      else if w.pc.attempt < MAX_CHUNK_RETRIES - 1 then w.(pc := Backoff(w.pc.i, w.pc.attempt))
      else w.(pc := Ended)
    case FinalReply(ok) =>
      if ok then w.(pc := Reported, saved := false, referenced := false) else w.(pc := Ended)
    case Pause => w.(paused := true)
    case Unpause => w.(paused := false)
    case CancelUpload =>
      // The request to the server is best-effort: its arrival is Serve(S.Cancel).
      if w.referenced then w.(cancelled := true, paused := false, saved := false, referenced := false)
      else w.(cancelled := true, paused := false)
    case Close => w.(pc := Ended, referenced := false)
  }

  predicate Possible(w: World, events: seq<Event>)
    decreases |events|
  {
    events == [] || (Enabled(w, events[0]) && Possible(Step(w, events[0]), events[1..]))
  }

  function Run(w: World, events: seq<Event>): World
    requires Possible(w, events)
    decreases |events|
  {
    if events == [] then w else Run(Step(w, events[0]), events[1..])
  }

  // The call of `upload` that creates the session.
  function Open(file: seq<Octet>, chunkSize: nat): Option<World> {
    match S.Create(file, chunkSize)
    case None => None
    case Some(server) =>
      Some(World(server, Job(file, server.session.chunkSize, server.session.totalChunks),
                 Loop(0), false, false, true, true))
  }

  // ---- Chunk arithmetic ----

  // Where chunk i of the file begins; the first i chunks end there.
  function Bound(size: nat, chunkSize: nat, i: nat): nat {
    Min(i * chunkSize, size)
  }

  lemma {:induction false} BoundAt(size: nat, chunkSize: nat, i: nat)
    requires chunkSize > 0 && i < S.Ceil(size, chunkSize)
    ensures i * chunkSize < size
    ensures Bound(size, chunkSize, i) == i * chunkSize
    ensures Bound(size, chunkSize, i + 1) == Min(i * chunkSize + chunkSize, size)
    ensures Bound(size, chunkSize, i) < Bound(size, chunkSize, i + 1)
    ensures i * chunkSize / chunkSize == i
  {
    var q := S.Ceil(size, chunkSize);
    CeilBounds(size, chunkSize);
    Later(i + 1, q, chunkSize);
    Successor(i, chunkSize);
    DivideBack(i, chunkSize);
    hide S.Ceil;
  }

  lemma {:induction false} CeilBounds(size: nat, c: nat)
    requires c > 0
    ensures S.Ceil(size, c) * c <= size + c - 1 < S.Ceil(size, c) * c + c
  {
  }

  lemma {:induction false} Successor(i: nat, c: nat)
    ensures (i + 1) * c == i * c + c
  {
  }

  lemma {:induction false} Later(k: int, i: int, c: nat)
    requires k <= i
    ensures k * c <= i * c
  {
    assert (i - k) * c >= 0;
  }

  lemma {:induction false} DivideBack(i: nat, c: nat)
    requires c > 0
    ensures i * c / c == i
  {
    var p := i * c;
    Quotient(p, c, i, p / c);
  }

  lemma {:induction false} Quotient(p: int, c: nat, i: int, q: int)
    requires c > 0 && p == i * c && 0 <= p - q * c < c
    ensures i == q
  {
    assert i > q ==> (i - q - 1) * c >= 0;
    assert i < q ==> (q - i - 1) * c >= 0;
  }

  lemma {:induction false} BoundEnd(size: nat, chunkSize: nat)
    requires chunkSize > 0
    ensures Bound(size, chunkSize, S.Ceil(size, chunkSize)) == size
  {
    CeilBounds(size, chunkSize);
  }

  // ---- A session fed by one file and one chunk size ----

  function End(s: S.Server, i: nat): nat {
    Bound(|s.session.declared|, s.session.chunkSize, i)
  }

  // A session whose chunk count did not overflow.
  predicate Plain(s: S.Server) {
    && s.session.chunkSize > 0
    && s.session.totalChunks == |s.session.chunks|
    && |s.session.chunks| == S.Ceil(|s.session.declared|, s.session.chunkSize)
    && |s.session.chunks| < 0x8000_0000
  }

  // The first m chunks are complete, the next may be at work, the rest is untouched.
  predicate FrontierOk(s: S.Server, m: nat) {
    && m <= |s.session.chunks|
    && (forall i | 0 <= i < m :: s.session.chunks[i] == S.Completed)
    && (forall i | m < i < |s.session.chunks| :: s.session.chunks[i] == S.Pending)
    && (m < |s.session.chunks| ==> s.session.chunks[m] != S.Completed)
  }

  // A request carries its own chunk of the declared file, not beyond the frontier.
  predicate SliceOf(s: S.Server, i: int, offset: nat, data: seq<Octet>) {
    && 0 <= i < |s.session.chunks|
    && offset == End(s, i) <= End(s, i + 1) <= |s.session.declared|
    && data == s.session.declared[End(s, i)..End(s, i + 1)]
  }

  predicate RequestOk(s: S.Server, m: nat, q: S.Request) {
    && q.index <= m
    && (q.phase == S.Answered(true) ==> q.index < m)
    && SliceOf(s, q.index, q.offset, q.data)
  }

  ghost predicate RequestsOk(s: S.Server, m: nat) {
    forall id | id in s.requests :: RequestOk(s, m, s.requests[id])
  }

  // The ranges written so far are the first chunks in order; the frontier chunk may be
  // written before it is marked.
  predicate LogRanges(s: S.Server, m: nat) {
    && m <= |s.log| <= m + 1
    && (forall j | 0 <= j < |s.log| :: s.log[j] == (End(s, j), End(s, j + 1)))
    && (|s.log| == m + 1 ==> m < |s.session.chunks| && s.session.chunks[m] == S.Uploading)
  }

  ghost predicate LogWork(s: S.Server, m: nat) {
    forall id | id in s.requests ::
      && (s.requests[id].phase.Claimed? ==> |s.log| == m)
      && (s.requests[id].phase.Written? ==> |s.log| == m + 1)
  }

  predicate Holds(s: S.Server, n: nat)
    requires s.temp.Some? && |s.temp.value| == |s.session.declared|
  {
    forall b | 0 <= b < n && b < |s.temp.value| :: s.temp.value[b] == s.session.declared[b]
  }

  ghost predicate TempOk(s: S.Server, m: nat) {
    s.temp.Some? ==>
      && |s.temp.value| == |s.session.declared|
      && Holds(s, End(s, m))
      && forall id | id in s.requests && s.requests[id].phase.Written? :: Holds(s, End(s, m + 1))
  }

  ghost predicate Fed(s: S.Server, m: nat) {
    S.Inv(s) && Plain(s) && FrontierOk(s, m) && RequestsOk(s, m) && LogRanges(s, m) && LogWork(s, m) && TempOk(s, m)
  }

  // The frontier after a step.
  function Next(m: nat, e: S.Event): nat {
    if e.Mark? then m + 1 else m
  }

  predicate Faithful(s: S.Server, m: nat, e: S.Event) {
    e.Receive? ==> exists i: nat :: i <= m && e.offset == i * s.session.chunkSize && SliceOf(s, i, e.offset, e.data)
  }

  // Who is at work is at work on the frontier chunk.
  lemma {:induction false} AtWork(s: S.Server, m: nat, id: nat)
    requires Fed(s, m) && id in s.requests
    ensures s.requests[id].phase.Claimed? || s.requests[id].phase.Written? ==>
              s.requests[id].index == m && s.session.chunks[m] == S.Uploading
  {
    assert S.RequestOk(s, s.requests[id]) && RequestOk(s, m, s.requests[id]);
  }

  lemma {:induction false} FrontierKept(s: S.Server, m: nat, e: S.Event)
    requires Fed(s, m) && S.Enabled(s, e)
    ensures FrontierOk(S.Step(s, e), Next(m, e))
  {
    S.ChunksAfter(s, e);
    if e.Mark? {
      AtWork(s, m, e.id);
    }
    if e.Claim? {
      assert RequestOk(s, m, s.requests[e.id]);
    }
    hide S.Step, LogRanges, LogWork, TempOk, Plain, S.Inv, RequestsOk, SliceOf;
  }

  lemma {:induction false} IndexOfSlice(s: S.Server, i: nat, offset: nat, data: seq<Octet>)
    requires Plain(s) && SliceOf(s, i, offset, data)
    ensures S.AsI32(offset / s.session.chunkSize) == i && data != []
  {
    BoundAt(|s.session.declared|, s.session.chunkSize, i);
  }

  // The session's geometry does not change.
  predicate SameShape(s: S.Server, t: S.Server) {
    && t.session.declared == s.session.declared
    && t.session.chunkSize == s.session.chunkSize
    && |t.session.chunks| == |s.session.chunks|
  }

  lemma {:induction false} ShapeKept(s: S.Server, e: S.Event)
    requires S.Enabled(s, e)
    ensures SameShape(s, S.Step(s, e))
    ensures Plain(s) ==> Plain(S.Step(s, e))
  {
    hide S.Patch;
  }

  // A step keeps every known request but for its phase.
  lemma {:induction false} RequestAfter(s: S.Server, e: S.Event, id: nat)
    requires S.Enabled(s, e) && id in S.Step(s, e).requests && !(e.Receive? && e.id == id)
    ensures id in s.requests
    ensures S.Step(s, e).requests[id] == s.requests[id].(phase := S.Step(s, e).requests[id].phase)
    ensures S.Step(s, e).requests[id].phase == S.Answered(true) ==>
              || s.requests[id].phase == S.Answered(true)
              || s.requests[id].phase == S.Marked
              || (S.InRange(s, s.requests[id]) && s.session.chunks[s.requests[id].index] == S.Completed)
  {
    hide S.Patch;
  }

  // A request at a completed chunk is behind the frontier.
  lemma {:induction false} RequestBefore(s: S.Server, m: nat, id: nat)
    requires Fed(s, m) && id in s.requests
    ensures var q := s.requests[id];
            && RequestOk(s, m, q)
            && (q.phase.Marked? || (S.InRange(s, q) && s.session.chunks[q.index] == S.Completed) ==> q.index < m)
  {
    assert S.RequestOk(s, s.requests[id]);
    hide S.Exclusive, S.CountOk, S.StoredOk, LogRanges, LogWork, TempOk, Plain, SliceOf;
  }

  lemma {:induction false} RequestKept(s: S.Server, m: nat, e: S.Event, id: nat)
    requires Fed(s, m) && S.Enabled(s, e) && id in S.Step(s, e).requests && !(e.Receive? && e.id == id)
    ensures RequestOk(S.Step(s, e), Next(m, e), S.Step(s, e).requests[id])
  {
    hide Fed, S.Step, S.Enabled, Bound;
    ShapeKept(s, e);
    RequestAfter(s, e, id);
    RequestBefore(s, m, id);
  }

  lemma {:induction false} RequestsKept(s: S.Server, m: nat, e: S.Event)
    requires Fed(s, m) && S.Enabled(s, e) && Faithful(s, m, e)
    ensures RequestsOk(S.Step(s, e), Next(m, e))
  {
    var t := S.Step(s, e);
    ShapeKept(s, e);
    forall id | id in t.requests
      ensures RequestOk(t, Next(m, e), t.requests[id])
    {
      if e.Receive? && e.id == id {
        var i: nat :| i <= m && e.offset == i * s.session.chunkSize && SliceOf(s, i, e.offset, e.data);
        IndexOfSlice(s, i, e.offset, e.data);
        hide Fed, S.AsI32;
      } else {
        RequestKept(s, m, e, id);
      }
    }
  }

  // Two requests are not at work on the frontier at once.
  lemma {:induction false} OneAtFrontier(s: S.Server, m: nat, id: nat, id': nat)
    requires Fed(s, m) && id in s.requests && id' in s.requests
    requires s.requests[id].phase.Claimed? || s.requests[id].phase.Written?
    requires s.requests[id'].phase.Claimed? || s.requests[id'].phase.Written?
    ensures id == id'
  {
    AtWork(s, m, id);
    AtWork(s, m, id');
  }

  // How far a request is at work after a step tells what the step was.
  lemma {:induction false} WorkAfter(s: S.Server, e: S.Event, id: nat)
    requires S.Enabled(s, e) && id in S.Step(s, e).requests
    ensures S.Step(s, e).requests[id].phase.Claimed? ==>
              || (id in s.requests && s.requests[id].phase.Claimed?)
              || (e == S.Claim(id) && S.InRange(s, s.requests[id]) && s.session.chunks[s.requests[id].index] == S.Pending)
    ensures S.Step(s, e).requests[id].phase.Written? ==>
              (id in s.requests && s.requests[id].phase.Written?) || e == S.Write(id)
    ensures e == S.Write(id) ==> !S.Step(s, e).requests[id].phase.Claimed?
    ensures e == S.Mark(id) ==> S.Step(s, e).requests[id].phase.Marked?
  {
    hide S.Patch;
  }

  lemma {:induction false} LogAfter(s: S.Server, e: S.Event)
    requires S.Enabled(s, e)
    ensures S.Step(s, e).log ==
            if e.Write? && s.temp.Some?
            then s.log + [(s.requests[e.id].offset, s.requests[e.id].offset + |s.requests[e.id].data|)]
            else s.log
    ensures e.Write? && s.temp.None? ==> S.Step(s, e).requests[e.id].phase == S.Answered(false)
  {
    hide S.Patch;
  }

  lemma {:induction false} WorkBefore(s: S.Server, m: nat, id: nat)
    requires Fed(s, m) && id in s.requests
    ensures s.requests[id].phase.Claimed? ==> |s.log| == m && s.session.chunks[m] == S.Uploading
    ensures s.requests[id].phase.Written? ==> |s.log| == m + 1
  {
    AtWork(s, m, id);
  }

  // A request that is written after a step was so before, or the step wrote it.
  lemma {:induction false} WrittenAfter(s: S.Server, m: nat, e: S.Event, id: nat)
    requires Fed(s, m) && S.Enabled(s, e) && id in S.Step(s, e).requests
    requires S.Step(s, e).requests[id].phase.Written?
    ensures || (e == S.Write(id) && s.temp.Some?)
            || (id in s.requests && s.requests[id].phase.Written? && !e.Write? && !e.Tear? && !e.Mark?)
  {
    LogAfter(s, e);
    WorkAfter(s, e, id);
    hide Fed, S.Step;
    if (e.Write? || e.Tear? || e.Mark?) && e.id != id {
      OneAtFrontier(s, m, id, e.id);
    }
  }

  // A request that is claimed after a step was so before, or claims now.
  lemma {:induction false} ClaimedAfter(s: S.Server, m: nat, e: S.Event, id: nat)
    requires Fed(s, m) && S.Enabled(s, e) && id in S.Step(s, e).requests
    requires S.Step(s, e).requests[id].phase.Claimed?
    ensures !e.Write? && !e.Mark?
    ensures |s.log| == m
  {
    WorkAfter(s, e, id);
    if e.Claim? {
      assert RequestOk(s, m, s.requests[e.id]);
    }
    if id in s.requests {
      WorkBefore(s, m, id);
    }
    hide S.Step, S.Inv, TempOk, Plain;
    if (e.Write? || e.Mark?) && e.id != id {
      OneAtFrontier(s, m, id, e.id);
    }
  }

  lemma {:induction false} LogWorkKept(s: S.Server, m: nat, e: S.Event)
    requires Fed(s, m) && S.Enabled(s, e)
    ensures LogWork(S.Step(s, e), Next(m, e))
  {
    hide Fed, S.Step, S.Enabled;
    var t := S.Step(s, e);
    LogAfter(s, e);
    forall id | id in t.requests
      ensures t.requests[id].phase.Claimed? ==> |t.log| == Next(m, e)
      ensures t.requests[id].phase.Written? ==> |t.log| == Next(m, e) + 1
    {
      if t.requests[id].phase.Claimed? {
        ClaimedAfter(s, m, e, id);
      }
      if t.requests[id].phase.Written? {
        WrittenAfter(s, m, e, id);
        WriteBefore(s, m, e);
        if id in s.requests {
          WorkBefore(s, m, id);
        }
      }
    }
  }

  lemma {:induction false} WriteBefore(s: S.Server, m: nat, e: S.Event)
    requires Fed(s, m) && S.Enabled(s, e)
    ensures e.Write? || e.Tear? ==>
              && e.id in s.requests
              && |s.log| == m
              && s.requests[e.id].index == m
              && SliceOf(s, m, s.requests[e.id].offset, s.requests[e.id].data)
    ensures e.Tear? ==> e.length <= |s.requests[e.id].data|
    ensures e.Mark? ==> e.id in s.requests && s.requests[e.id].phase.Written?
  {
    if e.Write? || e.Tear? {
      AtWork(s, m, e.id);
      assert RequestOk(s, m, s.requests[e.id]);
    }
  }

  lemma {:induction false} ClaimBefore(s: S.Server, m: nat, e: S.Event)
    requires Fed(s, m) && S.Enabled(s, e)
    ensures e.Claim? ==> 0 <= s.requests[e.id].index <= m && s.requests[e.id].index < |s.session.chunks|
    ensures e.Mark? ==> s.requests[e.id].index == m && |s.log| == m + 1
    ensures LogRanges(s, m) && FrontierOk(s, m)
  {
    if e.Mark? {
      AtWork(s, m, e.id);
    }
    if e.Claim? {
      assert RequestOk(s, m, s.requests[e.id]);
    }
  }

  lemma {:induction false} LogRangesKept(s: S.Server, m: nat, e: S.Event)
    requires Fed(s, m) && S.Enabled(s, e)
    ensures LogRanges(S.Step(s, e), Next(m, e))
  {
    hide Fed, S.Step, S.Enabled, Bound, S.InRange;
    ShapeKept(s, e);
    LogAfter(s, e);
    S.ChunksAfter(s, e);
    ClaimBefore(s, m, e);
    WriteBefore(s, m, e);
    var t := S.Step(s, e);
    assert forall j: nat :: End(t, j) == End(s, j);
    assert forall j | 0 <= j < |s.log| :: t.log[j] == s.log[j];
    if e.Write? {
      WrittenChunk(s, m, e);
    }
  }

  lemma {:induction false} WrittenChunk(s: S.Server, m: nat, e: S.Event)
    requires Fed(s, m) && S.Enabled(s, e) && e.Write?
    ensures m < |s.session.chunks| && s.session.chunks[m] == S.Uploading
  {
    AtWork(s, m, e.id);
    assert S.RequestOk(s, s.requests[e.id]);
  }

  lemma {:induction false} PatchHolds(file: seq<Octet>, declared: seq<Octet>, offset: nat, data: seq<Octet>)
    requires |file| == |declared| && offset + |data| <= |declared|
    requires data == declared[offset..offset + |data|]
    requires forall b | 0 <= b < offset :: file[b] == declared[b]
    ensures |S.Patch(file, offset, data)| == |declared|
    ensures forall b | 0 <= b < offset + |data| :: S.Patch(file, offset, data)[b] == declared[b]
  {
  }

  lemma {:induction false} TempAfter(s: S.Server, e: S.Event)
    requires S.Enabled(s, e)
    ensures S.Step(s, e).temp.Some? ==> s.temp.Some?
    ensures s.temp.Some? && S.Step(s, e).temp.Some? ==>
              S.Step(s, e).temp.value ==
              match e
              case Write(id) => S.Patch(s.temp.value, s.requests[id].offset, s.requests[id].data)
              case Tear(id, length) => S.Patch(s.temp.value, s.requests[id].offset, s.requests[id].data[..length])
              case _ => s.temp.value
  {
    hide S.Patch;
  }

  lemma {:induction false} TempBefore(s: S.Server, m: nat)
    requires Fed(s, m) && s.temp.Some?
    ensures |s.temp.value| == |s.session.declared| && Holds(s, End(s, m))
    ensures forall id | id in s.requests && s.requests[id].phase.Written? :: Holds(s, End(s, m + 1))
  {
  }

  lemma {:induction false} HoldsAfter(s: S.Server, m: nat, e: S.Event)
    requires Fed(s, m) && S.Enabled(s, e) && S.Step(s, e).temp.Some?
    ensures |S.Step(s, e).temp.value| == |s.session.declared|
    ensures Holds(S.Step(s, e), End(s, if e.Write? || e.Mark? then m + 1 else m))
    ensures !e.Write? && !e.Tear? ==> s.temp.Some? && S.Step(s, e).temp == s.temp
  {
    hide Fed, S.Step, S.Enabled, S.Patch, Bound;
    ShapeKept(s, e);
    TempAfter(s, e);
    TempBefore(s, m);
    WriteBefore(s, m, e);
    if e.Write? || e.Tear? {
      var q := s.requests[e.id];
      PatchHolds(s.temp.value, s.session.declared, q.offset, if e.Tear? then q.data[..e.length] else q.data);
    }
  }

  lemma {:induction false} TempKept(s: S.Server, m: nat, e: S.Event)
    requires Fed(s, m) && S.Enabled(s, e)
    ensures TempOk(S.Step(s, e), Next(m, e))
  {
    hide Fed, S.Step, S.Enabled, S.Patch, Bound;
    var t := S.Step(s, e);
    if t.temp.Some? {
      ShapeKept(s, e);
      HoldsAfter(s, m, e);
      WriteBefore(s, m, e);
      assert Holds(t, End(t, Next(m, e)));
      forall id | id in t.requests && t.requests[id].phase.Written?
        ensures Holds(t, End(t, Next(m, e) + 1))
      {
        WrittenAfter(s, m, e, id);
        if id in s.requests && !e.Write? {
          TempBefore(s, m);
        }
      }
    }
  }

  lemma {:induction false} FedKept(s: S.Server, m: nat, e: S.Event)
    requires Fed(s, m) && S.Enabled(s, e) && Faithful(s, m, e)
    ensures Fed(S.Step(s, e), Next(m, e))
  {
    S.StepInv(s, e);
    ShapeKept(s, e);
    FrontierKept(s, m, e);
    RequestsKept(s, m, e);
    LogRangesKept(s, m, e);
    LogWorkKept(s, m, e);
    TempKept(s, m, e);
    hide S.Step, S.Enabled, S.Inv, FrontierOk, RequestsOk, LogRanges, LogWork, TempOk, Faithful;
  }

  // ---- The client's part ----

  // From here on the two files are the same.
  predicate AgreeFrom(a: seq<Octet>, b: seq<Octet>, from: nat) {
    |a| == |b| && forall k | from <= k < |a| :: a[k] == b[k]
  }

  // A run cuts the session's chunks, and what it still has to send is the declared file.
  ghost predicate JobOk(w: World, m: nat) {
    !Stopped(w.pc) ==>
      && w.job.chunkSize == w.server.session.chunkSize
      && w.job.totalChunks == |w.server.session.chunks|
      && match w.pc
         case Loop(i) => i <= m && AgreeFrom(w.job.file, w.server.session.declared, End(w.server, i))
         case Parked(i) =>
           i <= m && i < w.job.totalChunks && AgreeFrom(w.job.file, w.server.session.declared, End(w.server, i))
         case Sending(i, _, id) =>
           && i <= m && i < w.job.totalChunks && AgreeFrom(w.job.file, w.server.session.declared, End(w.server, i))
           && id in w.server.requests && w.server.requests[id].index == i
         case Backoff(i, _) =>
           i <= m && i < w.job.totalChunks && AgreeFrom(w.job.file, w.server.session.declared, End(w.server, i))
         case Finalizing => m == w.job.totalChunks
         case _ => true
  }

  // A resumed run asks for the session's chunk size, and from the chunk it resumes at
  // its file is the session's. The latter holds of course for the same file.
  predicate FaithfulRun(w: World, e: Event) {
    e.Resume? ==>
      && e.chunkSize == w.server.session.chunkSize
      && AgreeFrom(e.file, w.server.session.declared, End(w.server, w.server.session.completedChunks))
  }

  lemma {:induction false} SubsetSize(a: set<nat>, m: nat)
    requires forall i | i in a :: i < m
    ensures |a| <= m
    decreases m
  {
    if m > 0 {
      SubsetSize(a - {m - 1}, m - 1);
    } else {
      assert a == {};
    }
  }

  lemma {:induction false} CounterBehind(s: S.Server, m: nat)
    requires Fed(s, m)
    ensures s.session.completedChunks <= m
  {
    SubsetSize(s.counted, m);
  }

  lemma {:induction false} BlobIsSlice(w: World, m: nat, i: nat)
    requires Plain(w.server)
    requires w.job.chunkSize == w.server.session.chunkSize
    requires AgreeFrom(w.job.file, w.server.session.declared, End(w.server, i))
    requires i < |w.server.session.chunks|
    ensures SliceOf(w.server, i, i * w.job.chunkSize, Blob(w.job, i))
  {
    BoundAt(|w.server.session.declared|, w.server.session.chunkSize, i);
  }

  lemma {:induction false} AttemptKeeps(w: World, m: nat, i: nat, attempt: nat, id: nat)
    requires Fed(w.server, m) && w.server.session.chunkSize > 0 && id !in w.server.requests
    requires w.job.chunkSize == w.server.session.chunkSize
    requires AgreeFrom(w.job.file, w.server.session.declared, End(w.server, i))
    requires w.job.totalChunks == |w.server.session.chunks|
    requires i <= m && i < w.job.totalChunks
    ensures Fed(Attempt(w, i, attempt, id).server, m) && JobOk(Attempt(w, i, attempt, id), m)
  {
    var e := Send(w, i, id);
    BlobIsSlice(w, m, i);
    IndexOfSlice(w.server, i, e.offset, e.data);
    assert Faithful(w.server, m, e);
    FedKept(w.server, m, e);
    ShapeKept(w.server, e);
    hide Fed, Blob;
  }

  lemma {:induction false} ReplyIsBehind(s: S.Server, m: nat, id: nat)
    requires Fed(s, m) && S.At(s, id, S.Answered(true))
    ensures s.requests[id].index < m
  {
    assert RequestOk(s, m, s.requests[id]);
  }

  function NextOf(m: nat, e: Event): nat {
    if e.Serve? then Next(m, e.e) else m
  }

  lemma {:induction false} ServeKeeps(w: World, m: nat, e: S.Event)
    requires Fed(w.server, m) && JobOk(w, m) && S.Enabled(w.server, e) && !e.Receive?
    ensures Fed(S.Step(w.server, e), Next(m, e)) && JobOk(w.(server := S.Step(w.server, e)), Next(m, e))
  {
    hide Fed, S.Step, S.Enabled;
    FedKept(w.server, m, e);
    ShapeKept(w.server, e);
    FrontierAtEnd(w.server, m, e);
    if w.pc.Sending? && w.pc.id in w.server.requests {
      RequestStays(w.server, e, w.pc.id);
    }
  }

  lemma {:induction false} RequestStays(s: S.Server, e: S.Event, id: nat)
    requires S.Enabled(s, e) && id in s.requests
    ensures id in S.Step(s, e).requests && S.Step(s, e).requests[id].index == s.requests[id].index
  {
    hide S.Patch;
  }

  lemma {:induction false} FrontierAtEnd(s: S.Server, m: nat, e: S.Event)
    requires Fed(s, m) && S.Enabled(s, e)
    ensures m == |s.session.chunks| ==> Next(m, e) == m
  {
    if e.Mark? {
      WrittenChunkOf(s, m, e.id);
    }
  }

  lemma {:induction false} WrittenChunkOf(s: S.Server, m: nat, id: nat)
    requires Fed(s, m) && id in s.requests && s.requests[id].phase.Written?
    ensures m < |s.session.chunks|
  {
    AtWork(s, m, id);
    assert S.RequestOk(s, s.requests[id]);
  }

  lemma {:induction false} FedShape(s: S.Server, m: nat)
    requires Fed(s, m)
    ensures m <= |s.session.chunks| == s.session.totalChunks && s.session.chunkSize > 0
  {
  }

  lemma {:induction false} AgreeLater(w: World, i: nat)
    requires AgreeFrom(w.job.file, w.server.session.declared, End(w.server, i))
    ensures AgreeFrom(w.job.file, w.server.session.declared, End(w.server, i + 1))
  {
    Successor(i, w.server.session.chunkSize);
  }

  lemma {:induction false} LocalKeeps(w: World, m: nat, e: Event)
    requires Fed(w.server, m) && JobOk(w, m) && Enabled(w, e) && FaithfulRun(w, e)
    requires !Sends(w, e) && !e.Serve?
    ensures Local(w, e).server == w.server && JobOk(Local(w, e), m)
  {
    hide Fed, S.Enabled, AgreeFrom, Bound;
    CounterBehind(w.server, m);
    FedShape(w.server, m);
    if e.Reply? {
      ReplyIsBehind(w.server, m, w.pc.id);
      AgreeLater(w, w.pc.i);
    }
  }

  lemma {:induction false} StepKeeps(w: World, m: nat, e: Event)
    requires Fed(w.server, m) && JobOk(w, m) && Enabled(w, e) && FaithfulRun(w, e)
    ensures Fed(Step(w, e).server, NextOf(m, e)) && JobOk(Step(w, e), NextOf(m, e))
  {
    hide Fed, Attempt, Local, S.Step, S.Enabled;
    if Sends(w, e) {
      FedShape(w.server, m);
      AttemptKeeps(w, m, w.pc.i, if e.Retry? then w.pc.attempt + 1 else 0, e.id);
    } else if e.Serve? {
      ServeKeeps(w, m, e.e);
    } else {
      LocalKeeps(w, m, e);
    }
  }

  // ---- The steps of the loop, one by one ----

  lemma {:induction false} ReplyIs(t: World)
    requires t.server.session.chunkSize > 0 && t.pc.Sending? && S.At(t.server, t.pc.id, S.Answered(true))
    ensures Enabled(t, Reply) && Step(t, Reply) == t.(pc := Loop(t.pc.i + 1))
  {
  }

  lemma {:induction false} FailureIs(t: World, expired: bool)
    requires t.server.session.chunkSize > 0 && t.pc.Sending?
    ensures Enabled(t, Failure(expired))
    ensures Step(t, Failure(expired)) ==
            if expired then t.(pc := Ended, saved := false, referenced := false)
            else t.(pc := if t.pc.attempt < MAX_CHUNK_RETRIES - 1 then Backoff(t.pc.i, t.pc.attempt) else Ended)
  {
  }

  lemma {:induction false} HeldIs(t: World, id: nat)
    requires t.server.session.chunkSize > 0 && t.pc.Loop? && t.pc.i < t.job.totalChunks
    requires (t.cancelled || t.paused) && id !in t.server.requests
    ensures Enabled(t, Top(id))
    ensures Step(t, Top(id)) == t.(pc := if t.cancelled then Ended else Parked(t.pc.i))
  {
  }

  lemma {:induction false} FinishIs(t: World, id: nat)
    requires t.server.session.chunkSize > 0 && t.pc.Loop? && t.pc.i >= t.job.totalChunks && id !in t.server.requests
    ensures Enabled(t, Top(id)) && Step(t, Top(id)) == t.(pc := Finalizing)
  {
  }

  lemma {:induction false} ReportIs(t: World)
    requires t.server.session.chunkSize > 0 && t.pc.Finalizing? && t.server.artifact.Some?
    ensures Enabled(t, FinalReply(true))
    ensures Step(t, FinalReply(true)) == t.(pc := Reported, saved := false, referenced := false)
  {
  }

  // One step more at the end of a run.
  lemma {:induction false} Extend(w: World, events: seq<Event>, e: Event) returns (more: seq<Event>)
    requires Possible(w, events) && Enabled(Run(w, events), e)
    ensures more == events + [e]
    ensures Possible(w, more) && Run(w, more) == Step(Run(w, events), e)
    decreases |events|
  {
    hide Step, Enabled;
    more := events + [e];
    if events == [] {
      assert more[1..] == [];
    } else {
      assert more[1..] == events[1..] + [e];
      var _ := Extend(Step(w, events[0]), events[1..], e);
    }
  }

  // ---- Over any number of failed, closed and resumed runs ----

  predicate AllFaithful(w: World, events: seq<Event>)
    requires Possible(w, events)
    decreases |events|
  {
    events == [] || (FaithfulRun(w, events[0]) && AllFaithful(Step(w, events[0]), events[1..]))
  }

  lemma {:induction false} RunKeeps(w: World, m: nat, events: seq<Event>) returns (n: nat)
    requires Fed(w.server, m) && JobOk(w, m) && Possible(w, events) && AllFaithful(w, events)
    ensures Fed(Run(w, events).server, n) && JobOk(Run(w, events), n)
    ensures SameShape(w.server, Run(w, events).server)
    decreases |events|
  {
    hide Fed, JobOk, Step, FaithfulRun, Enabled;
    n := m;
    if events != [] {
      StepKeeps(w, m, events[0]);
      WorldShape(w, events[0]);
      n := RunKeeps(Step(w, events[0]), NextOf(m, events[0]), events[1..]);
    }
  }

  lemma {:induction false} WorldShape(w: World, e: Event)
    requires Enabled(w, e)
    ensures SameShape(w.server, Step(w, e).server)
  {
    hide S.Step;
    if Sends(w, e) {
      ShapeKept(w.server, Send(w, w.pc.i, e.id));
    } else if e.Serve? {
      ShapeKept(w.server, e.e);
    }
  }

  lemma {:induction false} OpenFed(file: seq<Octet>, chunkSize: nat)
    requires Open(file, chunkSize).Some? && S.Ceil(|file|, chunkSize) < 0x8000_0000
    ensures Fed(Open(file, chunkSize).value.server, 0) && JobOk(Open(file, chunkSize).value, 0)
  {
    S.CreateInv(file, chunkSize);
  }

  // The ranges written are the chunks of the file in order, each once, without gap or
  // overlap; when the run asks for completion they reach the end, every chunk is
  // complete, and the temporary file, unless cancelled away, is the file.
  lemma {:induction false} UploadsTile(file: seq<Octet>, chunkSize: nat, events: seq<Event>)
    requires Open(file, chunkSize).Some? && S.Ceil(|file|, chunkSize) < 0x8000_0000
    requires Possible(Open(file, chunkSize).value, events) && AllFaithful(Open(file, chunkSize).value, events)
    ensures var t := Run(Open(file, chunkSize).value, events);
            && |t.server.log| <= S.Ceil(|file|, chunkSize)
            && (forall j | 0 <= j < |t.server.log| ::
                  t.server.log[j] == (Bound(|file|, chunkSize, j), Bound(|file|, chunkSize, j + 1)))
            && (t.pc.Finalizing? ==>
                  && |t.server.log| == S.Ceil(|file|, chunkSize)
                  && Bound(|file|, chunkSize, |t.server.log|) == |file|
                  && S.AllCompleted(t.server)
                  && (t.server.temp.Some? ==> t.server.temp.value == file))
  {
    hide Run, Possible, AllFaithful, Fed, JobOk, Bound, S.Ceil, S.AllCompleted;
    OpenFed(file, chunkSize);
    var w := Open(file, chunkSize).value;
    var n := RunKeeps(w, 0, events);
    assert w.server.session.declared == file && w.server.session.chunkSize == chunkSize;
    hide Open;
    AtCompletion(Run(w, events), n);
    assert forall j: nat :: End(Run(w, events).server, j) == Bound(|file|, chunkSize, j);
  }

  lemma {:induction false} AtCompletion(w: World, m: nat)
    requires Fed(w.server, m) && JobOk(w, m)
    ensures LogRanges(w.server, m) && |w.server.log| <= |w.server.session.chunks|
    ensures |w.server.session.chunks| == S.Ceil(|w.server.session.declared|, w.server.session.chunkSize)
    ensures w.pc.Finalizing? ==>
              && |w.server.log| == |w.server.session.chunks|
              && End(w.server, |w.server.session.chunks|) == |w.server.session.declared|
              && S.AllCompleted(w.server)
              && (w.server.temp.Some? ==> w.server.temp.value == w.server.session.declared)
  {
    BoundEnd(|w.server.session.declared|, w.server.session.chunkSize);
  }

  // ---- What is reported, whatever runs came before ----

  ghost predicate Sound(w: World) {
    S.Inv(w.server)
  }

  lemma {:induction false} StepSound(w: World, e: Event)
    requires Sound(w) && Enabled(w, e)
    ensures Sound(Step(w, e)) && Step(w, e).server.session.declared == w.server.session.declared
  {
    hide S.Step, S.Inv;
    if Sends(w, e) {
      S.StepInv(w.server, Send(w, w.pc.i, e.id));
      ShapeKept(w.server, Send(w, w.pc.i, e.id));
    } else if e.Serve? {
      S.StepInv(w.server, e.e);
      ShapeKept(w.server, e.e);
    }
  }

  lemma {:induction false} RunSound(w: World, events: seq<Event>)
    requires Sound(w) && Possible(w, events)
    ensures Sound(Run(w, events)) && Run(w, events).server.session.declared == w.server.session.declared
    decreases |events|
  {
    hide Step, Enabled, Sound;
    if events != [] {
      StepSound(w, events[0]);
      RunSound(Step(w, events[0]), events[1..]);
    }
  }

  // Success is reported only once the file that created the session is stored, which
  // may be another file than the last run was given.
  lemma {:induction false} ReportedIsStored(file: seq<Octet>, chunkSize: nat, events: seq<Event>)
    requires Open(file, chunkSize).Some? && Possible(Open(file, chunkSize).value, events)
    requires Enabled(Run(Open(file, chunkSize).value, events), FinalReply(true))
    ensures Run(Open(file, chunkSize).value, events).server.artifact == Some(file)
  {
    S.CreateInv(file, chunkSize);
    var w := Open(file, chunkSize).value;
    assert w.server.session.declared == file && Sound(w);
    hide Open, Run, Possible;
    RunSound(w, events);
  }

  predicate NoResume(events: seq<Event>) {
    forall k | 0 <= k < |events| :: !events[k].Resume?
  }

  // ---- When the slices of a resumed run tile the rest of the file ----

  // Slice i of a run that cuts chunks of r bytes.
  predicate InSlice(b: nat, i: nat, r: nat, size: nat) {
    i * r <= b < Min(i * r + r, size)
  }

  // Byte b is in a slice of a run over chunks k to total.
  ghost predicate Covered(b: nat, k: nat, total: nat, r: nat, size: nat) {
    exists i: nat :: k <= i < total && InSlice(b, i, r, size)
  }

  // The slices hold exactly the bytes that are not in the first k chunks of c bytes.
  ghost predicate Tiles(k: nat, total: nat, c: nat, r: nat, size: nat) {
    forall b: nat | b < size :: Covered(b, k, total, r, size) <==> k * c <= b
  }

  // Resuming at chunk k, at least one chunk done and one to do, tiles the rest exactly
  // when the requested chunk size is the session's.
  lemma {:induction false} TilesIff(k: nat, c: nat, r: nat, size: nat)
    requires c > 0 && 1 <= k < S.Ceil(size, c)
    ensures Tiles(k, S.Ceil(size, c), c, r, size) <==> r == c
  {
    var total := S.Ceil(size, c);
    BoundAt(size, c, k);
    hide S.Ceil;
    if r == c {
      forall b: nat | b < size
        ensures Covered(b, k, total, r, size) <==> k * c <= b
      {
        InOwnSlice(b, k, c, size);
      }
    } else if 0 < r < c {
      Shorter(k, r, c);
      assert k * r < k * c < size;
      assert InSlice(k * r, k, r, size);
      assert Covered(k * r, k, total, r, size);
    } else {
      NotCovered(k, total, c, r, size);
      assert !Covered(k * c, k, total, r, size);
    }
  }

  lemma {:induction false} Shorter(k: nat, r: nat, c: nat)
    requires k >= 1 && r < c
    ensures k * r < k * c
  {
    assert k * (c - r) >= c - r;
  }

  lemma {:induction false} BetweenMultiples(k: int, j: int, c: nat, b: int)
    requires k * c <= b < j * c
    ensures k < j
  {
    assert k >= j ==> (k - j) * c >= 0;
  }

  lemma {:induction false} InOwnSlice(b: nat, k: nat, c: nat, size: nat)
    requires c > 0 && b < size
    ensures Covered(b, k, S.Ceil(size, c), c, size) <==> k * c <= b
  {
    forall i: nat | k <= i
      ensures InSlice(b, i, c, size) ==> k * c <= b
    {
      Later(k, i, c);
    }
    if k * c <= b {
      var i, q := b / c, S.Ceil(size, c);
      assert i * c <= b < i * c + c;
      BetweenMultiples(k, i + 1, c, b);
      BetweenMultiples(i, q, c, b);
      assert InSlice(b, i, c, size);
    }
  }

  // With longer chunks the first byte to resend falls before every slice.
  lemma {:induction false} NotCovered(k: nat, total: nat, c: nat, r: nat, size: nat)
    requires k >= 1 && (r > c || r == 0)
    ensures !Covered(k * c, k, total, r, size)
  {
    forall i: nat | k <= i < total
      ensures !InSlice(k * c, i, r, size)
    {
      if r > 0 {
        Later(k, i, r);
        Shorter(k, c, r);
      }
    }
  }
}
