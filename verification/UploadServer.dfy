// One resumable upload session on the server. Every database statement and file
// operation of a chunk request is a step of its own, so any number of chunk requests, a
// completion, a cancellation and a server crash may interleave. Two steps stand for
// several reads or writes, and lose nothing by it. Verify reads the status, the chunk
// rows, the size and the digest: once all rows are complete no chunk request can write,
// so in between the file can only be removed, and then the reads fail as they do when
// the removal comes first. Cancel removes the file and then sets the status: what reads
// the status in between may as well come before it, what reads the file after it.
module UploadServer {
  import opened Text

  datatype ChunkStatus = Pending | Uploading | Completed

  datatype Status = New | InProgress | Failed | Finished | Cancelled

  datatype Phase = Sent | Admitted | Claimed | Written | Marked | Answered(ok: bool)

  // A chunk request: the start of its Content-Range, the number of the chunk the
  // handler takes it for, and its body.
  datatype Request = Request(offset: nat, index: int, data: seq<Octet>, phase: Phase)

  // The session row and its chunk rows. `declared` is the file whose SHA-256 and size
  // the client gave when it created the session: two files with one digest are one.
  datatype Session = Session(
    declared: seq<Octet>,
    chunkSize: nat,
    totalChunks: int,
    chunks: seq<ChunkStatus>,
    status: Status,
    completedChunks: nat,
    bytesReceived: nat)

  // `log` and `counted` record the ranges written to the temporary file and the chunk
  // numbers behind completedChunks. `verified` says that a completion request has
  // passed its checks and may still be on its way to storing the file, `mismatched`
  // that one has found another digest and may still be about to record that.
  datatype Server = Server(
    session: Session,
    temp: Option<seq<Octet>>,
    requests: map<nat, Request>,
    counted: set<nat>,
    log: seq<(nat, nat)>,
    verified: bool,
    mismatched: bool,
    artifact: Option<seq<Octet>>)

  const MIN_CHUNK_SIZE: nat := 1024 * 1024
  const MAX_CHUNK_SIZE: nat := 256 * 1024 * 1024

  // `n as i32`
  function AsI32(n: int): int {
    (n + 0x8000_0000) % 0x1_0000_0000 - 0x8000_0000
  }

  function Ceil(size: nat, chunkSize: nat): nat
    requires chunkSize > 0
  {
    (size + chunkSize - 1) / chunkSize
  }

  // create_session
  function Create(declared: seq<Octet>, chunkSize: nat): Option<Server> {
    if declared == [] || chunkSize < MIN_CHUNK_SIZE || chunkSize > MAX_CHUNK_SIZE then None
    else
      var total := AsI32(Ceil(|declared|, chunkSize));
      var rows := seq(if total > 0 then total else 0, i => Pending);
      Some(Server(Session(declared, chunkSize, total, rows, New, 0, 0),
                  Some(Gap(|declared|)), map[], {}, [], false, false, None))
  }

  function Gap(n: nat): (r: seq<Octet>)
    ensures |r| == n
  {
    seq(n, i => 0)
  }

  // seek and write_all; a hole before the offset reads as zeros.
  function Patch(file: seq<Octet>, offset: nat, data: seq<Octet>): (r: seq<Octet>)
    ensures |r| == if offset + |data| <= |file| then |file| else offset + |data|
    ensures forall i | 0 <= i < |r| ::
              r[i] == if offset <= i < offset + |data| then data[i - offset] else if i < |file| then file[i] else 0
  {
    var f := if |file| < offset then file + Gap(offset - |file|) else file;
    f[..offset] + data + if offset + |data| <= |f| then f[offset + |data|..] else []
  }

  datatype Event =
    | Receive(id: nat, offset: nat, data: seq<Octet>)
    | Admit(id: nat)
    | Claim(id: nat)
    | Write(id: nat)
    | Tear(id: nat, length: nat) // the write stops after some bytes
    | Mark(id: nat)
    | Count(id: nat)
    | Drop(id: nat)              // an error or a crash ends the request
    | Verify
    | Fail
    | Finish
    | Store
    | Cancel                     // by the client, or the clean-up of an expired session

  predicate At(s: Server, id: nat, phase: Phase) {
    id in s.requests && s.requests[id].phase == phase
  }

  predicate Live(s: Server) {
    s.session.status != Finished && s.session.status != Cancelled
  }

  predicate AllCompleted(s: Server) {
    forall i | 0 <= i < |s.session.chunks| :: s.session.chunks[i] == Completed
  }

  predicate InRange(s: Server, q: Request) {
    0 <= q.index < |s.session.chunks|
  }

  predicate Enabled(s: Server, e: Event) {
    s.session.chunkSize > 0 &&
    match e
    case Receive(id, _, _) => id !in s.requests
    case Admit(id) => At(s, id, Sent)
    case Claim(id) => At(s, id, Admitted)
    case Write(id) => At(s, id, Claimed)
    case Tear(id, length) => At(s, id, Claimed) && length <= |s.requests[id].data|
    case Mark(id) => At(s, id, Written) && InRange(s, s.requests[id])
    case Count(id) => At(s, id, Marked) && InRange(s, s.requests[id])
    case Drop(id) => id in s.requests && !s.requests[id].phase.Answered?
    case Verify => Live(s) && AllCompleted(s)
    case Fail => s.mismatched
    case Finish => s.verified
    case Store => s.verified
    case Cancel => true
  }

  function To(s: Server, id: nat, phase: Phase): Server
    requires id in s.requests
  {
    s.(requests := s.requests[id := s.requests[id].(phase := phase)])
  }

  function SetChunk(s: Server, id: nat, status: ChunkStatus): Server
    requires id in s.requests && InRange(s, s.requests[id])
  {
    s.(session := s.session.(chunks := s.session.chunks[s.requests[id].index := status]))
  }

  function Step(s: Server, e: Event): Server
    requires Enabled(s, e)
  {
    match e
    case Receive(id, offset, data) =>
      // An empty range is refused before anything else.
      var index := AsI32(offset / s.session.chunkSize);
      s.(requests := s.requests[id := Request(offset, index, data, if data == [] then Answered(false) else Sent)])
    case Admit(id) => To(s, id, if Live(s) then Admitted else Answered(false))
    case Claim(id) => AfterClaim(s, id)
    case Write(id) =>
      var q := s.requests[id];
      if s.temp.None? then To(s, id, Answered(false))
      else To(s, id, Written).(temp := Some(Patch(s.temp.value, q.offset, q.data)),
                               log := s.log + [(q.offset, q.offset + |q.data|)])
    case Tear(id, length) =>
      var q := s.requests[id];
      if s.temp.None? then To(s, id, Answered(false))
      else To(s, id, Answered(false)).(temp := Some(Patch(s.temp.value, q.offset, q.data[..length])))
    case Mark(id) => To(SetChunk(s, id, Completed), id, Marked)
    case Count(id) =>
      To(s, id, Answered(true)).(
        session := s.session.(completedChunks := s.session.completedChunks + 1,
                              bytesReceived := s.session.bytesReceived + |s.requests[id].data|,
                              status := if s.session.status == New then InProgress else s.session.status),
        counted := s.counted + {s.requests[id].index})
    case Drop(id) => To(s, id, Answered(false))
    case Verify =>
      if s.temp.None? || |s.temp.value| != |s.session.declared| then s
      else if s.temp.value == s.session.declared then s.(verified := true)
      else s.(mismatched := true)
    case Fail => s.(session := s.session.(status := Failed))
    case Finish => s.(session := s.session.(status := Finished))
    case Store => if s.temp.Some? then s.(artifact := s.temp, temp := None) else s
    case Cancel => s.(temp := None, session := s.session.(status := Cancelled))
  }

  // The claim is one UPDATE ... WHERE status = 'pending'.
  function AfterClaim(s: Server, id: nat): Server
    requires Enabled(s, Claim(id))
  {
    if !InRange(s, s.requests[id]) then To(s, id, Answered(false))
    else
      match s.session.chunks[s.requests[id].index]
      case Pending => To(SetChunk(s, id, Uploading), id, Claimed)
      case Completed => To(s, id, Answered(true))
      case Uploading => To(s, id, Answered(false))
  }

  // Nothing on the server stands in the way of a chunk.
  predicate Clear(s: Server) {
    && Live(s) && s.temp.Some?
    && forall i | 0 <= i < |s.session.chunks| :: s.session.chunks[i] != Uploading
  }

  // ---- The steps of one request, one by one ----

  lemma {:induction false} AdmitIs(s: Server, id: nat)
    requires s.session.chunkSize > 0 && At(s, id, Sent)
    ensures Enabled(s, Admit(id))
    ensures Step(s, Admit(id)) == To(s, id, if Live(s) then Admitted else Answered(false))
  {
  }

  lemma {:induction false} ClaimIs(s: Server, id: nat)
    requires s.session.chunkSize > 0 && At(s, id, Admitted) && InRange(s, s.requests[id])
    ensures Enabled(s, Claim(id))
    ensures Step(s, Claim(id)) ==
            match s.session.chunks[s.requests[id].index]
            case Pending => To(SetChunk(s, id, Uploading), id, Claimed)
            case Completed => To(s, id, Answered(true))
            case Uploading => To(s, id, Answered(false))
  {
  }

  lemma {:induction false} WriteIs(s: Server, id: nat)
    requires s.session.chunkSize > 0 && At(s, id, Claimed)
    ensures Enabled(s, Write(id))
    ensures var q := s.requests[id];
            Step(s, Write(id)) ==
            if s.temp.None? then To(s, id, Answered(false))
            else To(s, id, Written).(temp := Some(Patch(s.temp.value, q.offset, q.data)),
                                     log := s.log + [(q.offset, q.offset + |q.data|)])
  {
    hide Patch;
  }

  lemma {:induction false} MarkIs(s: Server, id: nat)
    requires s.session.chunkSize > 0 && At(s, id, Written) && InRange(s, s.requests[id])
    ensures Enabled(s, Mark(id))
    ensures Step(s, Mark(id)) == To(SetChunk(s, id, Completed), id, Marked)
  {
  }

  lemma {:induction false} CountIs(s: Server, id: nat)
    requires s.session.chunkSize > 0 && At(s, id, Marked) && InRange(s, s.requests[id])
    ensures Enabled(s, Count(id))
    ensures Step(s, Count(id)) ==
            To(s, id, Answered(true)).(
              session := s.session.(completedChunks := s.session.completedChunks + 1,
                                    bytesReceived := s.session.bytesReceived + |s.requests[id].data|,
                                    status := if s.session.status == New then InProgress else s.session.status),
              counted := s.counted + {s.requests[id].index})
  {
  }

  lemma {:induction false} CompleteIs(s: Server)
    requires s.session.chunkSize > 0 && Live(s) && AllCompleted(s) && s.temp == Some(s.session.declared)
    ensures Enabled(s, Verify) && Step(s, Verify) == s.(verified := true)
    ensures var t := s.(verified := true);
            Enabled(t, Finish) && Step(t, Finish) == t.(session := t.session.(status := Finished))
    ensures var t := s.(verified := true, session := s.session.(status := Finished));
            Enabled(t, Store) && Step(t, Store) == t.(artifact := t.temp, temp := None)
  {
  }

  // ---- What every run keeps, whatever clients send ----

  predicate Working(p: Phase) {
    p.Claimed? || p.Written? || p.Marked?
  }

  // A request at work on a chunk is the only one, and the row says how far it is.
  ghost predicate RequestOk(s: Server, q: Request) {
    Working(q.phase) ==>
      && InRange(s, q)
      && s.session.chunks[q.index] == (if q.phase.Marked? then Completed else Uploading)
      && q.index !in s.counted
  }

  ghost predicate Exclusive(s: Server) {
    forall id, id' | id in s.requests && id' in s.requests
                     && Working(s.requests[id].phase) && Working(s.requests[id'].phase) ::
      s.requests[id].index == s.requests[id'].index ==> id == id'
  }

  // Only completed chunks are counted, each once.
  ghost predicate CountOk(s: Server) {
    && s.session.completedChunks == |s.counted|
    && forall i | i in s.counted :: 0 <= i < |s.session.chunks| && s.session.chunks[i] == Completed
  }

  ghost predicate StoredOk(s: Server) {
    && (s.verified ==> AllCompleted(s) && (s.temp.Some? ==> s.temp.value == s.session.declared))
    && (s.artifact.Some? ==> s.artifact.value == s.session.declared)
  }

  ghost predicate Inv(s: Server) {
    && s.session.chunkSize > 0
    && (forall id | id in s.requests :: RequestOk(s, s.requests[id]))
    && Exclusive(s)
    && CountOk(s)
    && StoredOk(s)
  }

  lemma {:induction false} CreateInv(declared: seq<Octet>, chunkSize: nat)
    requires Create(declared, chunkSize).Some?
    ensures Inv(Create(declared, chunkSize).value)
  {
  }

  lemma {:induction false} UncountedClaim(s: Server)
    requires CountOk(s)
    ensures forall i | 0 <= i < |s.session.chunks| && s.session.chunks[i] != Completed :: i !in s.counted
  {
  }

  lemma {:induction false} OneAtWork(s: Server)
    requires Exclusive(s)
    ensures forall id, id' | id in s.requests && id' in s.requests && id != id'
                && Working(s.requests[id].phase) && Working(s.requests[id'].phase) ::
              s.requests[id].index != s.requests[id'].index
  {
  }

  lemma {:induction false} ChunksAfter(s: Server, e: Event)
    requires Enabled(s, e)
    ensures Step(s, e).session.chunks ==
            match e
            case Mark(id) => s.session.chunks[s.requests[id].index := Completed]
            case Claim(id) =>
              if InRange(s, s.requests[id]) && s.session.chunks[s.requests[id].index] == Pending
              then s.session.chunks[s.requests[id].index := Uploading]
              else s.session.chunks
            case _ => s.session.chunks
  {
    hide Patch;
  }

  lemma {:induction false} CountAfter(s: Server, e: Event)
    requires Enabled(s, e)
    ensures Step(s, e).counted == if e.Count? then s.counted + {s.requests[e.id].index} else s.counted
    ensures Step(s, e).session.completedChunks == s.session.completedChunks + if e.Count? then 1 else 0
  {
    hide Patch;
  }

  // Who is at work after a step was at work before, or claims a pending chunk now.
  lemma {:induction false} WorkFrom(s: Server, e: Event, id: nat)
    requires Enabled(s, e) && id in Step(s, e).requests && Working(Step(s, e).requests[id].phase)
    ensures id in s.requests && Step(s, e).requests[id].index == s.requests[id].index
    ensures Step(s, e).requests[id].phase.Marked? ==> s.requests[id].phase.Marked? || e == Mark(id)
    ensures !Step(s, e).requests[id].phase.Marked? ==>
              || (e != Mark(id) && (s.requests[id].phase.Claimed? || s.requests[id].phase.Written?))
              || (e == Claim(id) && InRange(s, s.requests[id]) && s.session.chunks[s.requests[id].index] == Pending)
    ensures e != Count(id)
  {
    hide Patch;
  }

  lemma {:induction false} MarksOwn(s: Server, e: Event)
    requires Enabled(s, e) && (e.Mark? || e.Count?)
    ensures e.id in s.requests && Working(s.requests[e.id].phase)
  {
  }

  lemma {:induction false} StepRequests(s: Server, e: Event)
    requires Inv(s) && Enabled(s, e)
    ensures forall id | id in Step(s, e).requests :: RequestOk(Step(s, e), Step(s, e).requests[id])
  {
    UncountedClaim(s);
    OneAtWork(s);
    ChunksAfter(s, e);
    CountAfter(s, e);
    if e.Mark? || e.Count? {
      MarksOwn(s, e);
      assert RequestOk(s, s.requests[e.id]);
    }
    var t := Step(s, e);
    hide Step, Enabled, CountOk, StoredOk, Exclusive;
    forall id | id in t.requests
      ensures RequestOk(t, t.requests[id])
    {
      if Working(t.requests[id].phase) {
        WorkFrom(s, e, id);
        assert RequestOk(s, s.requests[id]);
      }
    }
  }

  lemma {:induction false} StepExclusive(s: Server, e: Event)
    requires Inv(s) && Enabled(s, e)
    ensures Exclusive(Step(s, e))
  {
    OneAtWork(s);
    var t := Step(s, e);
    assert forall id | id in s.requests :: RequestOk(s, s.requests[id]);
    hide Step, Enabled, CountOk, StoredOk, Exclusive;
    forall id, id' | id in t.requests && id' in t.requests
                     && Working(t.requests[id].phase) && Working(t.requests[id'].phase)
                     && t.requests[id].index == t.requests[id'].index
      ensures id == id'
    {
      WorkFrom(s, e, id);
      WorkFrom(s, e, id');
      assert RequestOk(s, s.requests[id]) && RequestOk(s, s.requests[id']);
    }
    assert Exclusive(t) by { ExclusiveIs(t); }
  }

  lemma {:induction false} ExclusiveIs(s: Server)
    requires forall id, id' | id in s.requests && id' in s.requests
               && Working(s.requests[id].phase) && Working(s.requests[id'].phase) ::
               s.requests[id].index == s.requests[id'].index ==> id == id'
    ensures Exclusive(s)
  {
  }

  lemma {:induction false} StepCount(s: Server, e: Event)
    requires Inv(s) && Enabled(s, e)
    ensures CountOk(Step(s, e))
  {
    ChunksAfter(s, e);
    CountAfter(s, e);
    assert e.Count? ==> RequestOk(s, s.requests[e.id]);
    hide Step, Exclusive, StoredOk, AllCompleted, RequestOk;
  }

  lemma {:induction false} StepStored(s: Server, e: Event)
    requires Inv(s) && Enabled(s, e)
    ensures StoredOk(Step(s, e))
  {
    hide Patch, Exclusive, CountOk;
  }

  lemma {:induction false} StepInv(s: Server, e: Event)
    requires Inv(s) && Enabled(s, e)
    ensures Inv(Step(s, e))
  {
    StepRequests(s, e);
    StepExclusive(s, e);
    StepCount(s, e);
    StepStored(s, e);
    assert Step(s, e).session.chunkSize == s.session.chunkSize;
    hide Step, Exclusive, CountOk, StoredOk, RequestOk;
  }

  predicate Possible(s: Server, events: seq<Event>)
    decreases |events|
  {
    events == [] || (Enabled(s, events[0]) && Possible(Step(s, events[0]), events[1..]))
  }

  function Run(s: Server, events: seq<Event>): Server
    requires Possible(s, events)
    decreases |events|
  {
    if events == [] then s else Run(Step(s, events[0]), events[1..])
  }

  lemma {:induction false} RunInv(s: Server, events: seq<Event>)
    requires Inv(s) && Possible(s, events)
    ensures Inv(Run(s, events))
    ensures Run(s, events).session.declared == s.session.declared
    decreases |events|
  {
    hide Inv, Enabled;
    if events != [] {
      StepInv(s, events[0]);
      assert Step(s, events[0]).session.declared == s.session.declared;
      hide Step;
      RunInv(Step(s, events[0]), events[1..]);
    }
  }

  // Whatever requests arrive, of whatever clients, in whatever order: a file is stored
  // only if it is the declared one, and the counter never runs ahead of the chunks.
  lemma {:induction false} StoredIsDeclared(declared: seq<Octet>, chunkSize: nat, events: seq<Event>)
    requires Create(declared, chunkSize).Some? && Possible(Create(declared, chunkSize).value, events)
    ensures var t := Run(Create(declared, chunkSize).value, events);
            && (t.artifact.Some? ==> t.artifact.value == declared)
            && (exists done: set<nat> :: |done| == t.session.completedChunks
                  && forall i | i in done :: i < |t.session.chunks| && t.session.chunks[i] == Completed)
  {
    var s := Create(declared, chunkSize).value;
    CreateInv(declared, chunkSize);
    assert s.session.declared == declared;
    hide Create;
    RunInv(s, events);
    hide Possible, Run;
    assert CountOk(Run(s, events)) && StoredOk(Run(s, events));
    var done := Run(s, events).counted;
    assert |done| == Run(s, events).session.completedChunks;
  }

  // ---- A request that dies at work wedges its chunk ----

  ghost predicate Wedged(s: Server, k: nat) {
    && k < |s.session.chunks| && s.session.chunks[k] == Uploading
    && forall id | id in s.requests && s.requests[id].index == k :: !Working(s.requests[id].phase)
  }

  predicate WorksOn(s: Server, id: nat, k: nat) {
    id in s.requests && s.requests[id].index == k && (s.requests[id].phase.Claimed? || s.requests[id].phase.Written?)
  }

  // The steps that wedge chunk k: its request dies at work, its write stops half-way,
  // or the temporary file is gone when it wants to write.
  predicate Wedges(s: Server, e: Event, k: nat) {
    match e
    case Drop(id) => WorksOn(s, id, k)
    case Tear(id, _) => WorksOn(s, id, k)
    case Write(id) => WorksOn(s, id, k) && s.temp.None?
    case _ => false
  }

  // Who works on a chunk goes on, unless it is this kind of step, or it is done.
  lemma {:induction false} WorkGoesOn(s: Server, e: Event, id: nat)
    requires Enabled(s, e) && id in s.requests && Working(s.requests[id].phase)
    ensures id in Step(s, e).requests && Step(s, e).requests[id].index == s.requests[id].index
    ensures !Working(Step(s, e).requests[id].phase) <==>
              || e == Drop(id) || (e.Tear? && e.id == id) || (e == Write(id) && s.temp.None?) || e == Count(id)
  {
    hide Patch;
  }

  // A chunk becomes wedged exactly by such a step.
  lemma {:induction false} WedgedIff(s: Server, e: Event, k: nat)
    requires Inv(s) && Enabled(s, e) && !Wedged(s, k)
    ensures Wedged(Step(s, e), k) <==> Wedges(s, e, k)
  {
    var t := Step(s, e);
    ChunksAfter(s, e);
    if Wedges(s, e, k) {
      assert RequestOk(s, s.requests[e.id]);
      forall id | id in t.requests && t.requests[id].index == k
        ensures !Working(t.requests[id].phase)
      {
        if Working(t.requests[id].phase) {
          WorkFrom(s, e, id);
          OneAtWork(s);
          WorkGoesOn(s, e, e.id);
        }
      }
    } else if Wedged(t, k) {
      WedgedBy(s, e, k);
    }
  }

  lemma {:induction false} WedgedBy(s: Server, e: Event, k: nat)
    requires Inv(s) && Enabled(s, e) && !Wedged(s, k) && Wedged(Step(s, e), k)
    ensures Wedges(s, e, k)
  {
    ChunksAfter(s, e);
    if s.session.chunks[k] == Uploading {
      var id :| id in s.requests && s.requests[id].index == k && Working(s.requests[id].phase);
      WorkGoesOn(s, e, id);
      assert RequestOk(s, s.requests[id]);
    } else {
      ClaimWorks(s, e);
    }
    hide Step;
  }

  // A claim that changes its row is at work.
  lemma {:induction false} ClaimWorks(s: Server, e: Event)
    requires Enabled(s, e) && e.Claim? && InRange(s, s.requests[e.id])
    requires s.session.chunks[s.requests[e.id].index] == Pending
    ensures Step(s, e).requests[e.id].phase == Claimed
  {
  }

  predicate EverWedges(s: Server, events: seq<Event>, k: nat)
    requires Possible(s, events)
    decreases |events|
  {
    events != [] && (Wedges(s, events[0], k) || EverWedges(Step(s, events[0]), events[1..], k))
  }

  // In every run: wedged at the end exactly if wedged before, or by a step of the run.
  lemma {:induction false} WedgedRunIff(s: Server, events: seq<Event>, k: nat)
    requires Inv(s) && Possible(s, events)
    ensures Wedged(Run(s, events), k) <==> Wedged(s, k) || EverWedges(s, events, k)
    decreases |events|
  {
    hide Inv, Enabled, Step, Wedged, Wedges;
    if events != [] {
      StepInv(s, events[0]);
      WedgedRunIff(Step(s, events[0]), events[1..], k);
      if Wedged(s, k) {
        StepWedged(s, events[0], k);
      } else {
        WedgedIff(s, events[0], k);
      }
    }
  }

  function ServerDies(data: seq<Octet>): seq<Event> {
    [Receive(0, 0, data), Admit(0), Claim(0), Drop(0)]
  }

  lemma {:induction false} Extend(s: Server, events: seq<Event>, e: Event) returns (more: seq<Event>)
    requires Possible(s, events) && Enabled(Run(s, events), e)
    ensures more == events + [e]
    ensures Possible(s, more) && Run(s, more) == Step(Run(s, events), e)
    decreases |events|
  {
    hide Step, Enabled;
    more := events + [e];
    if events == [] {
      assert more[1..] == [];
    } else {
      assert more[1..] == events[1..] + [e];
      var _ := Extend(Step(s, events[0]), events[1..], e);
    }
  }

  // It happens: a new session, its first chunk claimed, and the request dropped.
  lemma {:induction false} WedgedFromStart(declared: seq<Octet>, chunkSize: nat, data: seq<Octet>)
    requires Create(declared, chunkSize).Some? && Create(declared, chunkSize).value.session.chunks != [] && data != []
    ensures var s := Create(declared, chunkSize).value;
            Possible(s, ServerDies(data)) && Wedged(Run(s, ServerDies(data)), 0)
  {
    var s := Create(declared, chunkSize).value;
    var es := [];
    assert Possible(s, es) && Run(s, es) == s;
    assert s.session.chunks[0] == Pending && AsI32(0 / s.session.chunkSize) == 0;
    CreateInv(declared, chunkSize);
    assert s.requests == map[] && Live(s);
    FirstArrives(s, data);
    hide Create, AsI32, Possible, Run, Inv, Step, Enabled;
    es := Extend(s, es, Receive(0, 0, data));
    var t := Run(s, es);
    AdmitIs(t, 0);
    es := Extend(s, es, Admit(0));
    t := Run(s, es);
    ClaimIs(t, 0);
    es := Extend(s, es, Claim(0));
    t := Run(s, es);
    DropIs(t, 0);
    es := Extend(s, es, Drop(0));
    assert es == ServerDies(data);
    assert t.requests.Keys == {0};
  }

  lemma {:induction false} FirstArrives(s: Server, data: seq<Octet>)
    requires Inv(s) && s.requests == map[] && data != []
    ensures Enabled(s, Receive(0, 0, data)) && s.session.chunkSize > 0
    ensures Step(s, Receive(0, 0, data)) ==
            s.(requests := map[0 := Request(0, AsI32(0 / s.session.chunkSize), data, Sent)])
  {
  }

  lemma {:induction false} DropIs(s: Server, id: nat)
    requires s.session.chunkSize > 0 && id in s.requests && !s.requests[id].phase.Answered?
    ensures Enabled(s, Drop(id)) && Step(s, Drop(id)) == To(s, id, Answered(false))
  {
  }

  lemma {:induction false} StepWedged(s: Server, e: Event, k: nat)
    requires Inv(s) && Enabled(s, e) && Wedged(s, k)
    ensures Wedged(Step(s, e), k) && Step(s, e).artifact == s.artifact
  {
    hide Patch, Exclusive, CountOk;
    assert forall id | id in s.requests :: RequestOk(s, s.requests[id]);
  }

  // No later request, retry or completion gets past the chunk.
  lemma {:induction false} WedgedForever(s: Server, events: seq<Event>, k: nat)
    requires Inv(s) && Possible(s, events) && Wedged(s, k)
    ensures Wedged(Run(s, events), k) && Run(s, events).artifact == s.artifact
    decreases |events|
  {
    hide Inv, Enabled, Step, Wedged;
    if events != [] {
      StepInv(s, events[0]);
      StepWedged(s, events[0], k);
      WedgedForever(Step(s, events[0]), events[1..], k);
    }
  }
}
