// What a cancelled upload still does. Nothing runs between an answer and the next loop
// head of the page, short of a progress callback; a cancellation comes in while a
// request, a timer or a pause is waited for.
module UploadCancel {
  import opened Text
  import S = UploadServer
  import opened UploadClient
  import opened UploadTraces

  // ---- No later chunk ----

  // After a cancellation at chunk i no later chunk is sent.
  predicate StoppingAt(w: World, i: nat) {
    w.cancelled &&
    match w.pc
    case Loop(j) => j <= i + 1
    case Parked(j) => j <= i
    case Sending(j, _, _) => j <= i
    case Backoff(j, _) => j <= i
    case _ => true
  }

  lemma {:induction false} StepStopping(w: World, e: Event, i: nat)
    requires Enabled(w, e) && !e.Resume? && StoppingAt(w, i)
    ensures StoppingAt(Step(w, e), i)
    ensures Sends(w, e) ==> w.pc.i <= i
  {
    hide S.Step, S.Enabled;
  }

  lemma {:induction false} CancelStops(w: World, events: seq<Event>, e: Event, i: nat)
    requires Possible(w, events) && NoResume(events) && StoppingAt(w, i)
    requires Enabled(Run(w, events), e)
    ensures StoppingAt(Run(w, events), i)
    ensures Sends(Run(w, events), e) ==> Run(w, events).pc.i <= i
    decreases |events|
  {
    hide Step, Enabled, StoppingAt, Sends;
    if events != [] {
      StepStopping(w, events[0], i);
      CancelStops(Step(w, events[0]), events[1..], e, i);
    } else if !e.Resume? {
      StepStopping(w, e, i);
    } else {
      ResumeSendsNothing(w, e);
    }
  }

  lemma {:induction false} ResumeSendsNothing(w: World, e: Event)
    requires Enabled(w, e) && e.Resume?
    ensures !Sends(w, e)
  {
    hide S.Enabled;
  }

  // ---- Completion ----

  // The chunk being sent or retried is the last one, or none is left.
  predicate LastChunk(w: World) {
    match w.pc
    case Loop(i) => i >= w.job.totalChunks
    case Sending(i, _, _) => i + 1 >= w.job.totalChunks
    case Backoff(i, _) => i + 1 >= w.job.totalChunks
    case Finalizing => true
    case _ => false
  }

  // The page is closed, the last attempt fails, the session is expired, or the
  // completion is answered.
  predicate GivesUp(w: World, e: Event) {
    match e
    case Close => true
    case FinalReply(_) => true
    case Failure(expired) => w.pc.Sending? && (expired || w.pc.attempt >= MAX_CHUNK_RETRIES - 1)
    case _ => false
  }

  lemma {:induction false} StepLastChunk(w: World, e: Event)
    requires w.cancelled && Enabled(w, e) && !e.Resume?
    ensures Step(w, e).cancelled
    ensures LastChunk(Step(w, e)) <==> LastChunk(w) && !GivesUp(w, e)
  {
    hide S.Step, S.Enabled;
  }

  predicate Persists(w: World, events: seq<Event>)
    requires Possible(w, events)
    decreases |events|
  {
    events == [] || (!GivesUp(w, events[0]) && Persists(Step(w, events[0]), events[1..]))
  }

  // A cancelled upload is on its way to completion exactly as long as it was so when
  // it was cancelled and has not given up.
  lemma {:induction false} LastChunkIff(w: World, events: seq<Event>)
    requires w.cancelled && Possible(w, events) && NoResume(events)
    ensures LastChunk(Run(w, events)) <==> LastChunk(w) && Persists(w, events)
    decreases |events|
  {
    hide Step, Enabled, LastChunk, GivesUp;
    if events != [] {
      StepLastChunk(w, events[0]);
      LastChunkIff(Step(w, events[0]), events[1..]);
    }
  }

  // ---- When completion is still requested ----

  ghost predicate Leads(w: World, events: seq<Event>, t: World) {
    Possible(w, events) && Run(w, events) == t && NoResume(events)
  }

  lemma {:induction false} Go(w: World, events: seq<Event>, t: World, e: Event) returns (more: seq<Event>, u: World)
    requires Leads(w, events, t) && Enabled(t, e) && !e.Resume?
    ensures u == Step(t, e) && Leads(w, more, u)
  {
    hide Step, Enabled;
    more := Extend(w, events, e);
    u := Step(t, e);
  }

  lemma {:induction false} GoServe(w: World, events: seq<Event>, t: World, s: S.Server, e: S.Event) returns (more: seq<Event>)
    requires Leads(w, events, t.(server := s))
    requires s.session.chunkSize > 0 && S.Enabled(s, e) && !e.Receive?
    ensures Leads(w, more, t.(server := S.Step(s, e)))
  {
    var at := t.(server := s);
    assert Enabled(at, Serve(e)) && Step(at, Serve(e)) == t.(server := S.Step(s, e));
    hide Leads, Step, Enabled;
    var u;
    more, u := Go(w, events, at, Serve(e));
  }

  // The session after request q is counted.
  function CountedIn(s: S.Session, q: S.Request): S.Session {
    s.(completedChunks := s.completedChunks + 1, bytesReceived := s.bytesReceived + |q.data|,
       status := if s.status == S.New then S.InProgress else s.status)
  }

  // The session after request q took its chunk.
  function TakenIn(s: S.Session, q: S.Request): S.Session
    requires 0 <= q.index < |s.chunks|
  {
    CountedIn(s.(chunks := s.chunks[q.index := S.Completed]), q)
  }

  // A request that meets no trouble is answered well, and leaves none to the next.
  lemma {:induction false} Answers(w: World, events: seq<Event>, t: World, id: nat) returns (more: seq<Event>, r: S.Server)
    requires Leads(w, events, t) && t.server.session.chunkSize > 0
    requires S.At(t.server, id, S.Sent) && S.InRange(t.server, t.server.requests[id]) && S.Clear(t.server)
    ensures Leads(w, more, t.(server := r))
    ensures S.At(r, id, S.Answered(true)) && r.requests.Keys == t.server.requests.Keys && S.Clear(r)
    ensures var q := t.server.requests[id];
            r.session == if t.server.session.chunks[q.index] == S.Pending then TakenIn(t.server.session, q) else t.server.session
  {
    hide Leads, S.Step, S.Enabled;
    var s := t.server;
    assert t.(server := s) == t;
    S.AdmitIs(s, id);
    more := GoServe(w, events, t, s, S.Admit(id));
    r := S.Step(s, S.Admit(id));
    more, r := AnswersAdmitted(w, more, t, r, id);
  }

  lemma {:induction false} AnswersAdmitted(w: World, events: seq<Event>, t: World, s: S.Server, id: nat)
    returns (more: seq<Event>, r: S.Server)
    requires Leads(w, events, t.(server := s)) && s.session.chunkSize > 0
    requires S.At(s, id, S.Admitted) && S.InRange(s, s.requests[id]) && S.Clear(s)
    ensures Leads(w, more, t.(server := r))
    ensures S.At(r, id, S.Answered(true)) && r.requests.Keys == s.requests.Keys && S.Clear(r)
    ensures var q := s.requests[id];
            r.session == if s.session.chunks[q.index] == S.Pending then TakenIn(s.session, q) else s.session
  {
    hide Leads, S.Step, S.Enabled;
    S.ClaimIs(s, id);
    more := GoServe(w, events, t, s, S.Claim(id));
    r := S.Step(s, S.Claim(id));
    if r.requests[id].phase.Claimed? {
      var q := s.requests[id];
      assert s.session.chunks[q.index := S.Uploading][q.index := S.Completed] == s.session.chunks[q.index := S.Completed];
      more, r := Works(w, more, t, r, id);
    }
  }

  lemma {:induction false} Works(w: World, events: seq<Event>, t: World, s: S.Server, id: nat) returns (more: seq<Event>, r: S.Server)
    requires Leads(w, events, t.(server := s)) && s.session.chunkSize > 0
    requires S.At(s, id, S.Claimed) && S.InRange(s, s.requests[id]) && s.temp.Some?
    ensures Leads(w, more, t.(server := r))
    ensures S.At(r, id, S.Answered(true)) && r.requests.Keys == s.requests.Keys && r.temp.Some?
    ensures r.session == TakenIn(s.session, s.requests[id])
  {
    hide Leads, S.Step, S.Enabled, S.Patch;
    S.WriteIs(s, id);
    more := GoServe(w, events, t, s, S.Write(id));
    r := S.Step(s, S.Write(id));
    more, r := Marks(w, more, t, r, id);
  }

  lemma {:induction false} Marks(w: World, events: seq<Event>, t: World, s: S.Server, id: nat) returns (more: seq<Event>, r: S.Server)
    requires Leads(w, events, t.(server := s)) && s.session.chunkSize > 0
    requires S.At(s, id, S.Written) && S.InRange(s, s.requests[id])
    ensures Leads(w, more, t.(server := r))
    ensures S.At(r, id, S.Answered(true)) && r.requests.Keys == s.requests.Keys && r.temp == s.temp
    ensures r.session == TakenIn(s.session, s.requests[id])
  {
    hide Leads, S.Step, S.Enabled;
    S.MarkIs(s, id);
    more := GoServe(w, events, t, s, S.Mark(id));
    r := S.Step(s, S.Mark(id));
    more, r := Counts(w, more, t, r, id);
  }

  lemma {:induction false} Counts(w: World, events: seq<Event>, t: World, s: S.Server, id: nat) returns (more: seq<Event>, r: S.Server)
    requires Leads(w, events, t.(server := s)) && s.session.chunkSize > 0
    requires S.At(s, id, S.Marked) && S.InRange(s, s.requests[id])
    ensures Leads(w, more, t.(server := r))
    ensures S.At(r, id, S.Answered(true)) && r.requests.Keys == s.requests.Keys && r.temp == s.temp
    ensures r.session == CountedIn(s.session, s.requests[id])
  {
    hide Leads, S.Step, S.Enabled;
    S.CountIs(s, id);
    more := GoServe(w, events, t, s, S.Count(id));
    r := S.Step(s, S.Count(id));
  }

  // The server would answer a retry of chunk i.
  predicate Retriable(w: World, i: nat)
    requires w.server.session.chunkSize > 0
  {
    && S.Clear(w.server) && Blob(w.job, i) != []
    && 0 <= S.AsI32(i * w.job.chunkSize / w.server.session.chunkSize) < |w.server.session.chunks|
  }

  // The server has answered the request, or can.
  predicate Answerable(s: S.Server, id: nat) {
    id in s.requests &&
    match s.requests[id].phase
    case Answered(ok) => ok
    case Sent => S.Clear(s) && S.InRange(s, s.requests[id])
    case Admitted => S.Clear(s) && S.InRange(s, s.requests[id])
    case Claimed => s.temp.Some? && S.InRange(s, s.requests[id])
    case Written => S.InRange(s, s.requests[id])
    case Marked => S.InRange(s, s.requests[id])
  }

  // The chunk on its way can still be answered well, or sent again.
  predicate Willing(w: World) {
    && w.server.session.chunkSize > 0
    && (w.pc.Sending? ==>
          || Answerable(w.server, w.pc.id)
          || (w.pc.attempt < MAX_CHUNK_RETRIES - 1 && Retriable(w, w.pc.i)))
    && (w.pc.Backoff? ==> Retriable(w, w.pc.i))
  }

  lemma {:induction false} RetryIs(t: World, id: nat)
    requires t.server.session.chunkSize > 0 && t.pc.Backoff? && id !in t.server.requests && Blob(t.job, t.pc.i) != []
    ensures Enabled(t, Retry(id))
    ensures Step(t, Retry(id)) ==
            t.(pc := Sending(t.pc.i, t.pc.attempt + 1, id),
               server := t.server.(requests :=
                 t.server.requests[id := S.Request(t.pc.i * t.job.chunkSize,
                                                   S.AsI32(t.pc.i * t.job.chunkSize / t.server.session.chunkSize),
                                                   Blob(t.job, t.pc.i), S.Sent)]))
  {
    hide S.AsI32, Blob;
  }

  lemma {:induction false} AfterAnswer(w: World, events: seq<Event>, t: World, id: nat) returns (more: seq<Event>, u: World)
    requires Leads(w, events, t) && t.server.session.chunkSize > 0 && id !in t.server.requests
    requires t.pc.Sending? && t.pc.i + 1 >= t.job.totalChunks && S.At(t.server, t.pc.id, S.Answered(true))
    ensures Leads(w, more, u) && u == t.(pc := Finalizing)
  {
    hide Leads, Step, Enabled;
    ReplyIs(t);
    more, u := Go(w, events, t, Reply);
    FinishIs(u, id);
    more, u := Go(w, more, u, Top(id));
  }

  lemma {:induction false} CompletesAnswered(w: World, events: seq<Event>, t: World, id: nat) returns (more: seq<Event>, u: World)
    requires Leads(w, events, t) && t.server.session.chunkSize > 0 && id !in t.server.requests
    requires t.pc.Sending? && t.pc.i + 1 >= t.job.totalChunks && Answerable(t.server, t.pc.id)
    ensures Leads(w, more, u) && u.pc.Finalizing?
  {
    hide Leads, S.Clear;
    var sent, r := t.pc.id, t.server;
    more := events;
    assert t.(server := r) == t;
    match r.requests[sent].phase {
      case Sent => more, r := Answers(w, events, t, sent);
      case Admitted => more, r := AnswersAdmitted(w, events, t, r, sent);
      case Claimed => more, r := Works(w, events, t, r, sent);
      case Written => more, r := Marks(w, events, t, r, sent);
      case Marked => more, r := Counts(w, events, t, r, sent);
      case Answered(_) =>
    }
    more, u := AfterAnswer(w, more, t.(server := r), id);
  }

  lemma {:induction false} CompletesRetried(w: World, events: seq<Event>, t: World, id: nat, id': nat)
    returns (more: seq<Event>, u: World)
    requires Leads(w, events, t) && t.server.session.chunkSize > 0
    requires id !in t.server.requests && id' !in t.server.requests && id != id'
    requires t.pc.Backoff? && t.pc.i + 1 >= t.job.totalChunks && Retriable(t, t.pc.i)
    ensures Leads(w, more, u) && u.pc.Finalizing?
  {
    hide Leads, Step, Enabled, S.AsI32, Blob;
    RetryIs(t, id);
    more, u := Go(w, events, t, Retry(id));
    more, u := CompletesAnswered(w, more, u, id');
  }

  lemma {:induction false} Completes(w: World, id: nat, id': nat) returns (events: seq<Event>, t: World)
    requires LastChunk(w) && Willing(w)
    requires id !in w.server.requests && id' !in w.server.requests && id != id'
    ensures Leads(w, events, t) && t.pc.Finalizing?
  {
    events, t := [], w;
    assert Leads(w, events, t);
    hide Leads, Step, Enabled, Answerable, Retriable;
    match w.pc
    case Finalizing =>
    case Loop(i) =>
      FinishIs(t, id);
      events, t := Go(w, events, t, Top(id));
    case Sending(_, _, _) =>
      if Answerable(w.server, w.pc.id) {
        events, t := CompletesAnswered(w, events, t, id);
      } else {
        FailureIs(t, false);
        events, t := Go(w, events, t, Failure(false));
        assert Retriable(t, t.pc.i) by { SameRetry(w, t, w.pc.i); }
        events, t := CompletesRetried(w, events, t, id, id');
      }
    case Backoff(i, _) =>
      events, t := CompletesRetried(w, events, t, id, id');
  }

  lemma {:induction false} SameRetry(w: World, t: World, i: nat)
    requires w.server.session.chunkSize > 0 && Retriable(w, i) && t.server == w.server && t.job == w.job
    ensures Retriable(t, i)
  {
  }

  // A cancelled upload, on a server that answers its chunk, can still request
  // completion exactly when its last chunk is being sent or retried, or none is left.
  lemma {:induction false} LateCompletionIff(w: World, id: nat, id': nat)
    requires w.cancelled && Willing(w)
    requires id !in w.server.requests && id' !in w.server.requests && id != id'
    ensures (exists events :: Possible(w, events) && NoResume(events) && Run(w, events).pc.Finalizing?) <==> LastChunk(w)
  {
    if LastChunk(w) {
      var events, t := Completes(w, id, id');
      assert Possible(w, events) && NoResume(events) && Run(w, events).pc.Finalizing?;
    }
    if events :| Possible(w, events) && NoResume(events) && Run(w, events).pc.Finalizing? {
      LastChunkIff(w, events);
      assert LastChunk(Run(w, events));
    }
  }

  // ---- It happens to every file ----

  // The first n chunks are taken and the next one is at the loop head.
  ghost predicate TakenUpTo(t: World, file: seq<Octet>, c: nat, n: nat) {
    && c > 0 && t.pc == Loop(n) && !t.paused && !t.cancelled && t.referenced && t.saved
    && t.job == Job(file, c, S.Ceil(|file|, c))
    && t.server.session.chunkSize == c && t.server.temp.Some?
    && |t.server.session.chunks| == S.Ceil(|file|, c)
    && (forall i | n <= i < |t.server.session.chunks| :: t.server.session.chunks[i] == S.Pending)
    && (forall i | 0 <= i < n && i < |t.server.session.chunks| :: t.server.session.chunks[i] == S.Completed)
    && t.server.session.status == (if n == 0 then S.New else S.InProgress)
    && t.server.session.completedChunks == n && t.server.session.declared == file
    && t.server.session.totalChunks == S.Ceil(|file|, c)
    && forall id | id in t.server.requests :: id < n
  }

  lemma {:induction false} TakenIsReady(t: World, file: seq<Octet>, c: nat, n: nat)
    requires TakenUpTo(t, file, c, n) && c > 0 && n < S.Ceil(|file|, c) < 0x8000_0000
    ensures Ready(t, n, n)
  {
    BoundAt(|file|, c, n);
  }

  lemma {:induction false} RunSplit(w: World, first: seq<Event>, second: seq<Event>)
    requires Possible(w, first) && Possible(Run(w, first), second)
    ensures Possible(w, first + second) && Run(w, first + second) == Run(Run(w, first), second)
    decreases |first|
  {
    hide Step, Enabled;
    if first == [] {
      assert first + second == second;
    } else {
      assert (first + second)[1..] == first[1..] + second;
      RunSplit(Step(w, first[0]), first[1..], second);
    }
  }

  lemma {:induction false} SmoothResumesNothing(id: nat)
    ensures NoResume(Smooth(id))
  {
  }

  // One chunk more is sent and taken.
  lemma {:induction false} SendsNext(w: World, events: seq<Event>, t: World, file: seq<Octet>, c: nat, n: nat)
    returns (more: seq<Event>, u: World)
    requires Leads(w, events, t) && TakenUpTo(t, file, c, n) && c > 0 && n < S.Ceil(|file|, c) < 0x8000_0000
    ensures t.server.temp.Some? && n < |t.server.session.chunks|
    ensures Leads(w, more, u) && Took(t, n, n, u)
  {
    TakenIsReady(t, file, c, n);
    SmoothChunk(t, n, n);
    SmoothResumesNothing(n);
    RunSplit(w, events, Smooth(n));
    more, u := events + Smooth(n), Run(t, Smooth(n));
  }

  lemma {:induction false} TookNext(t: World, u: World, file: seq<Octet>, c: nat, n: nat)
    requires TakenUpTo(t, file, c, n) && c > 0 && n < S.Ceil(|file|, c) && Took(t, n, n, u)
    ensures TakenUpTo(u.(pc := Loop(n + 1)), file, c, n + 1)
  {
    hide S.Ceil, S.Patch, Blob;
  }

  lemma {:induction false} TookIs(t: World, u: World, n: nat)
    requires t.server.temp.Some? && n < |t.server.session.chunks| && Took(t, n, n, u)
    ensures u.pc == Sending(n, 0, n) && S.At(u.server, n, S.Answered(true))
    ensures u.server.session.chunkSize == t.server.session.chunkSize && u.job == t.job
    ensures u.referenced == t.referenced && u.server.requests.Keys == t.server.requests.Keys + {n}
  {
    hide S.Patch, Blob;
  }

  lemma {:induction false} SendsUpTo(w: World, file: seq<Octet>, c: nat, n: nat) returns (events: seq<Event>, t: World)
    requires Open(file, c) == Some(w) && n <= S.Ceil(|file|, c) < 0x8000_0000 && c > 0
    ensures Leads(w, events, t) && TakenUpTo(t, file, c, n)
    decreases n
  {
    if n == 0 {
      events, t := [], w;
    } else {
      var u;
      events, t := SendsUpTo(w, file, c, n - 1);
      hide Leads, Open, S.Ceil, Step, Enabled;
      events, u := SendsNext(w, events, t, file, c, n - 1);
      TookNext(t, u, file, c, n - 1);
      TookIs(t, u, n - 1);
      hide TakenUpTo, Took;
      ReplyIs(u);
      events, t := Go(w, events, u, Reply);
    }
  }

  // The cancellation arrives, the last answer does too, and completion is requested.
  function CancelsLate(id: nat): seq<Event> {
    [CancelUpload] + [Serve(S.Cancel)] + [Reply] + [Top(id)]
  }

  // Any upload that is cancelled while its last chunk is on its way can still ask the
  // server to complete a session that the server has cancelled already.
  lemma {:induction false} FinalizeAfterCancel(file: seq<Octet>, c: nat) returns (before: seq<Event>, id: nat)
    requires Open(file, c).Some? && S.Ceil(|file|, c) < 0x8000_0000
    ensures var w := Open(file, c).value;
            && Possible(w, before) && NoResume(before)
            && Run(w, before).pc.Sending? && !Run(w, before).cancelled
            && Possible(w, before + CancelsLate(id))
    ensures var t := Run(Open(file, c).value, before + CancelsLate(id));
            t.pc == Finalizing && t.cancelled && t.server.session.status == S.Cancelled && t.server.temp == None
  {
    var w := Open(file, c).value;
    var total := S.Ceil(|file|, c);
    SomeChunk(|file|, c);
    var events, t, u;
    events, t := SendsUpTo(w, file, c, total - 1);
    before, u := SendsNext(w, events, t, file, c, total - 1);
    TookIs(t, u, total - 1);
    assert t.referenced && !t.cancelled && !u.cancelled;
    assert u.job.totalChunks == total && forall q | q in u.server.requests :: q < total;
    id := total;
    hide TakenUpTo, Took, Open, S.Ceil;
    EndsCancelled(w, before, u, id);
  }

  lemma {:induction false} SomeChunk(size: nat, c: nat)
    requires size > 0 && c > 0
    ensures S.Ceil(size, c) > 0
  {
    CeilBounds(size, c);
  }

  lemma {:induction false} EndsCancelled(w: World, before: seq<Event>, u: World, id: nat)
    requires Possible(w, before) && Run(w, before) == u && u.server.session.chunkSize > 0
    requires u.pc.Sending? && u.pc.i + 1 >= u.job.totalChunks && S.At(u.server, u.pc.id, S.Answered(true))
    requires u.referenced && id !in u.server.requests
    ensures Possible(w, before + CancelsLate(id))
    ensures var t := Run(w, before + CancelsLate(id));
            t.pc == Finalizing && t.cancelled && t.server.session.status == S.Cancelled && t.server.temp == None
  {
    hide Run, Possible, Step, Enabled, S.Step;
    DoCancel(u);
    var es := Extend(w, before, CancelUpload);
    var t := Run(w, es);
    CancelArrives(t.server);
    es, t := DoServe(w, es, t, S.Cancel);
    ReplyIs(t);
    es := Extend(w, es, Reply);
    FinishIs(Run(w, es), id);
    es := Extend(w, es, Top(id));
    assert es == before + CancelsLate(id);
  }
}
