// A session resumed with another file than the one that created it.
module UploadOtherFile {
  import opened Text
  import S = UploadServer
  import opened UploadClient
  import opened UploadTraces
  import opened UploadCancel
  import opened UploadResize

  lemma {:induction false} FaithfulUnresumed(w: World, events: seq<Event>)
    requires Possible(w, events) && NoResume(events)
    ensures AllFaithful(w, events)
    decreases |events|
  {
    hide Step, Enabled;
    if events != [] {
      assert FaithfulRun(w, events[0]);
      FaithfulUnresumed(Step(w, events[0]), events[1..]);
    }
  }

  // When every chunk is taken the server holds the file.
  lemma {:induction false} AllTaken(file: seq<Octet>, c: nat, events: seq<Event>, t: World)
    requires Open(file, c).Some? && S.Ceil(|file|, c) < 0x8000_0000
    requires Leads(Open(file, c).value, events, t) && TakenUpTo(t, file, c, S.Ceil(|file|, c))
    ensures S.AllCompleted(t.server) && t.server.temp == Some(file)
  {
    var w := Open(file, c).value;
    OpenFed(file, c);
    FaithfulUnresumed(w, events);
    var m := RunKeeps(w, 0, events);
    hide Open, Run, Possible, AllFaithful, Fed, S.Ceil;
    FedShape(t.server, m);
    AtCompletion(t.(pc := Finalizing), m);
  }

  // The page is closed with everything sent, the other file is resumed with, and the
  // completion goes through.
  function Mistaken(other: seq<Octet>, r: nat, id: nat): seq<Event> {
    [Close] + [Resume(other, r)] + [Top(id)]
    + ([Serve(S.Verify)] + [Serve(S.Finish)] + [Serve(S.Store)] + [FinalReply(true)])
  }

  // The size and the path are all a resumed session is matched by: for every file and
  // every other one of its size there is a run that reports the other as uploaded while
  // the server stores the first.
  lemma {:induction false} OtherFileReported(file: seq<Octet>, other: seq<Octet>, c: nat, r: nat)
    returns (before: seq<Event>, id: nat)
    requires Open(file, c).Some? && S.Ceil(|file|, c) < 0x8000_0000 && |other| == |file| && other != file
    ensures NoResume(before) && Possible(Open(file, c).value, before + Mistaken(other, r, id))
    ensures var t := Run(Open(file, c).value, before + Mistaken(other, r, id));
            t.pc == Reported && t.job.file == other && t.server.artifact == Some(file)
  {
    var w := Open(file, c).value;
    var total := S.Ceil(|file|, c);
    SomeChunk(|file|, c);
    var t;
    before, t := SendsUpTo(w, file, c, total);
    AllTaken(file, c, before, t);
    id := total;
    assert t.server.session.status == S.InProgress && id !in t.server.requests;
    assert t.server.session.declared == file && t.server.session.chunkSize > 0;
    hide Run, Possible, Open, S.Ceil, TakenUpTo, S.AllCompleted;
    var es, u := OtherFileResumes(w, before, t, other, r, id);
    es, u := ServerCompletes(w, es, u);
    assert es == before + Mistaken(other, r, id);
  }

  // ---- Which other files can be reported ----

  // The server as it would be for the file that is really sent: the chunks of the
  // session up to the resume point, those of the other file behind it. Requests
  // answered before, and what completion requests have found, are left aside.
  function Seen(s: S.Server, mixed: seq<Octet>, past: set<nat>): S.Server {
    s.(session := s.session.(declared := mixed), requests := s.requests - past,
       verified := false, mismatched := false, artifact := None)
  }

  function SeenBy(w: World, mixed: seq<Octet>, past: set<nat>): World {
    w.(server := Seen(w.server, mixed, past))
  }

  predicate PastAnswered(s: S.Server, past: set<nat>) {
    forall id | id in past :: id in s.requests && s.requests[id].phase.Answered?
  }

  predicate Completing(e: S.Event) {
    e.Verify? || e.Fail? || e.Finish? || e.Store?
  }

  // The request an event is about is not one of the past.
  lemma {:induction false} SeenRequest(s: S.Server, mixed: seq<Octet>, past: set<nat>, id: nat)
    requires PastAnswered(s, past) && id in s.requests && !s.requests[id].phase.Answered?
    ensures id in Seen(s, mixed, past).requests && Seen(s, mixed, past).requests[id] == s.requests[id]
    ensures id !in past
  {
  }

  lemma {:induction false} SeenTo(s: S.Server, mixed: seq<Octet>, past: set<nat>, id: nat, phase: S.Phase)
    requires id in s.requests && id !in past
    ensures S.To(Seen(s, mixed, past), id, phase) == Seen(S.To(s, id, phase), mixed, past)
  {
    assert S.To(Seen(s, mixed, past), id, phase).requests == Seen(S.To(s, id, phase), mixed, past).requests;
  }

  lemma {:induction false} SeenChunk(s: S.Server, mixed: seq<Octet>, past: set<nat>, id: nat, status: S.ChunkStatus)
    requires id in s.requests && id !in past && S.InRange(s, s.requests[id])
    ensures S.SetChunk(Seen(s, mixed, past), id, status) == Seen(S.SetChunk(s, id, status), mixed, past)
  {
  }

  lemma {:induction false} ReceiveSeen(s: S.Server, e: S.Event, mixed: seq<Octet>, past: set<nat>)
    requires PastAnswered(s, past) && S.Enabled(s, e) && e.Receive?
    ensures S.Enabled(Seen(s, mixed, past), e)
    ensures S.Step(Seen(s, mixed, past), e) == Seen(S.Step(s, e), mixed, past)
  {
    hide S.AsI32;
    assert e.id !in past;
    assert S.Step(Seen(s, mixed, past), e).requests == Seen(S.Step(s, e), mixed, past).requests;
  }

  lemma {:induction false} AnswerSeen(s: S.Server, e: S.Event, mixed: seq<Octet>, past: set<nat>)
    requires PastAnswered(s, past) && S.Enabled(s, e) && (e.Admit? || e.Claim? || e.Drop?)
    ensures S.Enabled(Seen(s, mixed, past), e)
    ensures S.Step(Seen(s, mixed, past), e) == Seen(S.Step(s, e), mixed, past)
  {
    SeenRequest(s, mixed, past, e.id);
    forall phase
      ensures S.To(Seen(s, mixed, past), e.id, phase) == Seen(S.To(s, e.id, phase), mixed, past)
    {
      SeenTo(s, mixed, past, e.id, phase);
    }
    if e.Claim? && S.InRange(s, s.requests[e.id]) {
      SeenChunk(s, mixed, past, e.id, S.Uploading);
      SeenTo(S.SetChunk(s, e.id, S.Uploading), mixed, past, e.id, S.Claimed);
    }
    hide S.To, S.SetChunk;
  }

  lemma {:induction false} WriteSeen(s: S.Server, e: S.Event, mixed: seq<Octet>, past: set<nat>)
    requires PastAnswered(s, past) && S.Enabled(s, e) && (e.Write? || e.Tear?)
    ensures S.Enabled(Seen(s, mixed, past), e)
    ensures S.Step(Seen(s, mixed, past), e) == Seen(S.Step(s, e), mixed, past)
  {
    SeenRequest(s, mixed, past, e.id);
    SeenTo(s, mixed, past, e.id, S.Written);
    SeenTo(s, mixed, past, e.id, S.Answered(false));
    hide S.Patch;
  }

  lemma {:induction false} MarkSeen(s: S.Server, e: S.Event, mixed: seq<Octet>, past: set<nat>)
    requires PastAnswered(s, past) && S.Enabled(s, e) && (e.Mark? || e.Count? || e.Cancel?)
    ensures S.Enabled(Seen(s, mixed, past), e)
    ensures S.Step(Seen(s, mixed, past), e) == Seen(S.Step(s, e), mixed, past)
  {
    if e.Mark? {
      SeenRequest(s, mixed, past, e.id);
      SeenChunk(s, mixed, past, e.id, S.Completed);
      SeenTo(S.SetChunk(s, e.id, S.Completed), mixed, past, e.id, S.Marked);
      hide S.To, S.SetChunk;
    } else if e.Count? {
      SeenRequest(s, mixed, past, e.id);
      SeenTo(s, mixed, past, e.id, S.Answered(true));
    }
  }

  lemma {:induction false} StepSeen(s: S.Server, e: S.Event, mixed: seq<Octet>, past: set<nat>)
    requires PastAnswered(s, past) && S.Enabled(s, e) && !Completing(e)
    ensures S.Enabled(Seen(s, mixed, past), e)
    ensures S.Step(Seen(s, mixed, past), e) == Seen(S.Step(s, e), mixed, past)
  {
    hide S.Step, S.Enabled, Seen;
    if e.Receive? {
      ReceiveSeen(s, e, mixed, past);
    } else if e.Admit? || e.Claim? || e.Drop? {
      AnswerSeen(s, e, mixed, past);
    } else if e.Write? || e.Tear? {
      WriteSeen(s, e, mixed, past);
    } else {
      MarkSeen(s, e, mixed, past);
    }
  }

  lemma {:induction false} PastStays(s: S.Server, e: S.Event, past: set<nat>)
    requires PastAnswered(s, past) && S.Enabled(s, e)
    ensures PastAnswered(S.Step(s, e), past)
  {
    forall id | id in past
      ensures id in S.Step(s, e).requests && S.Step(s, e).requests[id].phase.Answered?
    {
      AnswerStays(s, e, id);
    }
  }

  // Completion requests change the status and the verdict, and take the file away.
  lemma {:induction false} CompletingIs(s: S.Server, e: S.Event)
    requires S.Enabled(s, e) && Completing(e)
    ensures var t := S.Step(s, e);
            && t.session == s.session.(status := t.session.status)
            && t == s.(session := t.session, temp := t.temp, verified := t.verified,
                       mismatched := t.mismatched, artifact := t.artifact)
            && (t.temp == s.temp || t.temp == None)
            && (t.verified ==> s.verified || (S.AllCompleted(s) && s.temp == Some(s.session.declared)))
            && (t.artifact == s.artifact || s.verified)
  {
  }

  lemma {:induction false} FedLoosely(s: S.Server, t: S.Server, m: nat)
    requires Fed(s, m) && !s.verified
    requires t == s.(session := s.session.(status := t.session.status), temp := t.temp)
    requires t.temp == s.temp || t.temp == None
    ensures Fed(t, m)
  {
    hide S.Ceil, Bound;
    assert forall j: nat :: End(t, j) == End(s, j);
    forall id | id in t.requests
      ensures RequestOk(t, m, t.requests[id]) && S.RequestOk(t, t.requests[id])
    {
      assert RequestOk(s, m, s.requests[id]) && S.RequestOk(s, s.requests[id]);
    }
    assert FrontierOk(t, m) && LogRanges(t, m) && LogWork(t, m);
    assert TempOk(t, m);
    assert S.Exclusive(t) && S.CountOk(t);
  }

  ghost predicate Mixing(w: World, mixed: seq<Octet>, past: set<nat>, m: nat) {
    && Fed(Seen(w.server, mixed, past), m) && JobOk(SeenBy(w, mixed, past), m)
    && PastAnswered(w.server, past)
    && (w.server.verified || w.server.artifact.Some? || w.pc.Reported? ==> mixed == w.server.session.declared)
  }

  // A complete file that verifies is the mixed one.
  lemma {:induction false} VerifiedIsMixed(s: S.Server, mixed: seq<Octet>, past: set<nat>, m: nat)
    requires Fed(Seen(s, mixed, past), m) && S.AllCompleted(s) && s.temp == Some(s.session.declared)
    ensures mixed == s.session.declared
  {
    var v := Seen(s, mixed, past);
    BoundEnd(|mixed|, s.session.chunkSize);
    assert m == |v.session.chunks|;
    assert Holds(v, End(v, m));
    hide S.Ceil;
  }

  lemma {:induction false} ServeMixes(w: World, e: S.Event, mixed: seq<Octet>, past: set<nat>, m: nat) returns (n: nat)
    requires Mixing(w, mixed, past, m) && S.Enabled(w.server, e) && !e.Receive? && !Completing(e)
    ensures Mixing(w.(server := S.Step(w.server, e)), mixed, past, n)
  {
    n := Next(m, e);
    PastStays(w.server, e, past);
    StepSeen(w.server, e, mixed, past);
    VerdictStays(w.server, e);
    ServeKeeps(SeenBy(w, mixed, past), m, e);
    hide S.Step, S.Enabled, Fed, JobOk;
    var t := w.(server := S.Step(w.server, e));
    assert SeenBy(t, mixed, past) == SeenBy(w, mixed, past).(server := S.Step(Seen(w.server, mixed, past), e));
  }

  lemma {:induction false} VerdictStays(s: S.Server, e: S.Event)
    requires S.Enabled(s, e) && !Completing(e)
    ensures S.Step(s, e).verified == s.verified && S.Step(s, e).artifact == s.artifact
    ensures S.Step(s, e).session.declared == s.session.declared
  {
    hide S.Patch;
  }

  lemma {:induction false} CompletingMixes(w: World, e: S.Event, mixed: seq<Octet>, past: set<nat>, m: nat)
    requires Mixing(w, mixed, past, m) && S.Enabled(w.server, e) && Completing(e)
    ensures Mixing(w.(server := S.Step(w.server, e)), mixed, past, m)
  {
    var s, t := w.server, S.Step(w.server, e);
    PastStays(s, e, past);
    CompletingIs(s, e);
    hide S.Step, S.Enabled;
    FedLoosely(Seen(s, mixed, past), Seen(t, mixed, past), m);
    if t.verified && !s.verified {
      VerifiedIsMixed(s, mixed, past, m);
    }
    hide Fed;
  }

  lemma {:induction false} SendMixes(w: World, i: nat, attempt: nat, id: nat, mixed: seq<Octet>, past: set<nat>, m: nat)
    requires Mixing(w, mixed, past, m) && w.server.session.chunkSize > 0 && id !in w.server.requests
    requires w.job.chunkSize == w.server.session.chunkSize && w.job.totalChunks == |w.server.session.chunks|
    requires i <= m && i < w.job.totalChunks && !Stopped(w.pc)
    requires AgreeFrom(w.job.file, mixed, End(Seen(w.server, mixed, past), i))
    ensures Mixing(Attempt(w, i, attempt, id), mixed, past, m)
  {
    var e := Send(w, i, id);
    var v := SeenBy(w, mixed, past);
    PastStays(w.server, e, past);
    StepSeen(w.server, e, mixed, past);
    VerdictStays(w.server, e);
    AttemptKeeps(v, m, i, attempt, id);
    hide S.Step, S.Enabled, Fed, JobOk, AgreeFrom;
    assert Attempt(v, i, attempt, id) == SeenBy(Attempt(w, i, attempt, id), mixed, past);
  }

  // What the invariant says of a page that is about to send.
  lemma {:induction false} SenderMixes(w: World, e: Event, mixed: seq<Octet>, past: set<nat>, m: nat)
    requires Mixing(w, mixed, past, m) && Enabled(w, e) && Sends(w, e)
    ensures w.job.chunkSize == w.server.session.chunkSize && w.job.totalChunks == |w.server.session.chunks|
    ensures w.pc.i <= m && w.pc.i < w.job.totalChunks && !Stopped(w.pc)
    ensures AgreeFrom(w.job.file, mixed, End(Seen(w.server, mixed, past), w.pc.i))
  {
    hide Fed, AgreeFrom, S.Enabled;
  }

  lemma {:induction false} LocalSeen(w: World, e: Event, mixed: seq<Octet>, past: set<nat>)
    requires Enabled(w, e) && !e.Resume? && !Sends(w, e) && !e.Serve? && !e.FinalReply?
    requires Enabled(SeenBy(w, mixed, past), e) && !Sends(SeenBy(w, mixed, past), e)
    ensures Local(SeenBy(w, mixed, past), e) == SeenBy(Local(w, e), mixed, past)
    ensures Local(w, e).server == w.server && (Local(w, e).pc.Reported? ==> w.pc.Reported?)
  {
    hide S.Enabled, Seen;
  }

  lemma {:induction false} FinalSeen(w: World, e: Event)
    requires Enabled(w, e) && e.FinalReply?
    ensures Local(w, e).server == w.server && Stopped(Local(w, e).pc)
    ensures Local(w, e).pc.Reported? ==> w.server.artifact.Some?
  {
    hide S.Enabled;
  }

  lemma {:induction false} LocalMixes(w: World, e: Event, mixed: seq<Octet>, past: set<nat>, m: nat)
    requires Mixing(w, mixed, past, m) && Enabled(w, e) && !e.Resume? && !Sends(w, e) && !e.Serve?
    ensures Mixing(Local(w, e), mixed, past, m)
  {
    if e.FinalReply? {
      FinalSeen(w, e);
      hide Fed, Enabled, Sends, Local;
    } else {
      SeenEnabled(w, e, mixed, past, m);
      LocalSeen(w, e, mixed, past);
      LocalKeeps(SeenBy(w, mixed, past), m, e);
      hide Fed, Enabled, Sends, Local, JobOk;
    }
  }

  lemma {:induction false} SeenEnabled(w: World, e: Event, mixed: seq<Octet>, past: set<nat>, m: nat)
    requires Mixing(w, mixed, past, m) && Enabled(w, e) && !e.Resume? && !Sends(w, e) && !e.Serve? && !e.FinalReply?
    ensures Enabled(SeenBy(w, mixed, past), e) && !Sends(SeenBy(w, mixed, past), e)
    ensures FaithfulRun(SeenBy(w, mixed, past), e)
  {
    hide Fed, S.Enabled, AgreeFrom;
  }

  lemma {:induction false} StepMixes(w: World, e: Event, mixed: seq<Octet>, past: set<nat>, m: nat) returns (n: nat)
    requires Mixing(w, mixed, past, m) && Enabled(w, e) && !e.Resume?
    ensures Mixing(Step(w, e), mixed, past, n)
  {
    hide Mixing, Attempt, Local, S.Step, S.Enabled;
    n := m;
    if Sends(w, e) {
      SenderMixes(w, e, mixed, past, m);
      SendMixes(w, w.pc.i, if e.Retry? then w.pc.attempt + 1 else 0, e.id, mixed, past, m);
    } else if e.Serve? {
      if Completing(e.e) {
        CompletingMixes(w, e.e, mixed, past, m);
      } else {
        n := ServeMixes(w, e.e, mixed, past, m);
      }
    } else {
      LocalMixes(w, e, mixed, past, m);
    }
  }

  lemma {:induction false} RunMixes(w: World, events: seq<Event>, mixed: seq<Octet>, past: set<nat>, m: nat) returns (n: nat)
    requires Mixing(w, mixed, past, m) && Possible(w, events) && NoResume(events)
    ensures Mixing(Run(w, events), mixed, past, n)
    ensures Run(w, events).server.session.declared == w.server.session.declared
    decreases |events|
  {
    hide Mixing, Step, Enabled;
    n := m;
    if events != [] {
      n := StepMixes(w, events[0], mixed, past, m);
      WorldShape(w, events[0]);
      n := RunMixes(Step(w, events[0]), events[1..], mixed, past, n);
    }
  }

  // A run at chunk k of a session that holds the first k chunks and nothing else, with
  // the session's chunk size, some file of its size, and no request on its way.
  ghost predicate GoesOn(w: World, k: nat) {
    && Fed(w.server, k) && S.Clear(w.server)
    && (forall id | id in w.server.requests :: w.server.requests[id].phase.Answered?)
    && !w.server.verified && w.server.artifact == None
    && w.pc == Loop(k) && !w.paused && !w.cancelled
    && |w.job.file| == |w.server.session.declared|
    && w.job.chunkSize == w.server.session.chunkSize
    && w.job.totalChunks == |w.server.session.chunks|
  }

  // The first bytes of the one file and the rest of the other.
  function Mix(a: seq<Octet>, b: seq<Octet>, at: nat): (r: seq<Octet>)
    requires |a| == |b| && at <= |a|
    ensures |r| == |a| && forall i | 0 <= i < |r| :: r[i] == if i < at then a[i] else b[i]
    ensures r == a <==> AgreeFrom(b, a, at)
  {
    var r := a[..at] + b[at..];
    assert AgreeFrom(b, a, at) ==> r == a;
    r
  }

  lemma {:induction false} StartsMixing(w: World, k: nat) returns (mixed: seq<Octet>, past: set<nat>)
    requires GoesOn(w, k)
    ensures End(w.server, k) <= |w.server.session.declared|
    ensures mixed == Mix(w.server.session.declared, w.job.file, End(w.server, k))
    ensures Mixing(w, mixed, past, k)
  {
    var s := w.server;
    assert End(s, k) <= |s.session.declared|;
    mixed, past := Mix(s.session.declared, w.job.file, End(s, k)), s.requests.Keys;
    var v := Seen(s, mixed, past);
    assert v.requests == map[];
    hide S.Ceil, Bound;
    assert forall j: nat :: End(v, j) == End(s, j);
    assert S.Inv(v);
    assert FrontierOk(v, k) && LogRanges(v, k) && Plain(v);
    assert TempOk(v, k);
    assert AgreeFrom(w.job.file, mixed, End(v, k));
  }

  // A file is reported in the place of the session's exactly if it agrees with it from
  // the chunk that the run goes on with.
  lemma {:induction false} ReportableIff(w: World, k: nat)
    requires GoesOn(w, k)
    ensures (exists events :: Possible(w, events) && NoResume(events) && Run(w, events).pc.Reported?)
            <==> AgreeFrom(w.job.file, w.server.session.declared, End(w.server, k))
  {
    if events :| Possible(w, events) && NoResume(events) && Run(w, events).pc.Reported? {
      var mixed, past := StartsMixing(w, k);
      var n := RunMixes(w, events, mixed, past, k);
      hide Run, Possible, Fed, JobOk;
    }
    if AgreeFrom(w.job.file, w.server.session.declared, End(w.server, k)) {
      var events, t := GetsReported(w, k);
    }
  }

  lemma {:induction false} GetsReported(w: World, k: nat) returns (events: seq<Event>, t: World)
    requires GoesOn(w, k) && AgreeFrom(w.job.file, w.server.session.declared, End(w.server, k))
    ensures Possible(w, events) && NoResume(events) && Run(w, events) == t && t.pc.Reported?
  {
    events, t := GetsToEnd(w, k);
    FaithfulUnresumed(w, events);
    var m := RunKeeps(w, k, events);
    hide Run, Possible, AllFaithful, Fed, S.Ceil, JobOk;
    AtCompletion(t, m);
    FedShape(t.server, m);
    var before := events;
    events, t := ServerCompletes(w, events, t);
    assert NoResume(events);
  }

  lemma {:induction false} GetsToEnd(w: World, k: nat) returns (events: seq<Event>, t: World)
    requires GoesOn(w, k)
    ensures Leads(w, events, t) && t.pc.Finalizing? && S.Clear(t.server)
  {
    var c, size, total := w.server.session.chunkSize, |w.server.session.declared|, |w.server.session.chunks|;
    FedShape(w.server, k);
    if k < total {
      BoundAt(size, c, total - 1);
      assert Untroubled(w, k, c, size, c, total);
      events, t := GetsThrough(w, k, c, size, c, total);
    } else {
      var id := AboveAll(w.server.requests.Keys);
      FinishIs(w, id);
      assert Leads(w, [], w);
      hide Step, Enabled, Leads, Fed;
      events, t := Go(w, [], w, Top(id));
    }
  }
}
