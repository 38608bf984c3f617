// Pieces of the runs that show where an upload goes wrong.
module UploadTraces {
  import opened Text
  import S = UploadServer
  import opened UploadClient

  // One chunk request that meets no trouble, up to its answer.
  function Smooth(id: nat): seq<Event> {
    [Top(id), Serve(S.Admit(id)), Serve(S.Claim(id))] + [Serve(S.Write(id))] + [Serve(S.Mark(id))] + [Serve(S.Count(id))]
  }

  lemma {:induction false} DoServe(w: World, events: seq<Event>, t: World, e: S.Event) returns (more: seq<Event>, u: World)
    requires Possible(w, events) && Run(w, events) == t
    requires t.server.session.chunkSize > 0 && S.Enabled(t.server, e) && !e.Receive?
    ensures u == t.(server := S.Step(t.server, e))
    ensures more == events + [Serve(e)] && Possible(w, more) && Run(w, more) == u
  {
    more := Extend(w, events, Serve(e));
    u := t.(server := S.Step(t.server, e));
  }

  lemma {:induction false} DoSend(t: World, id: nat)
    requires t.pc.Loop? && !t.cancelled && !t.paused && id !in t.server.requests
    requires t.server.session.chunkSize > 0 && t.pc.i < t.job.totalChunks && Blob(t.job, t.pc.i) != []
    ensures Enabled(t, Top(id))
    ensures Step(t, Top(id)) ==
            t.(pc := Sending(t.pc.i, 0, id),
               server := t.server.(requests :=
                 t.server.requests[id := S.Request(t.pc.i * t.job.chunkSize,
                                                   S.AsI32(t.pc.i * t.job.chunkSize / t.server.session.chunkSize),
                                                   Blob(t.job, t.pc.i), S.Sent)]))
  {
    hide S.AsI32, Blob;
  }

  // What the server knows after it took chunk i of a run.
  predicate Took(w: World, i: nat, id: nat, t: World)
    requires w.server.temp.Some? && i < |w.server.session.chunks|
  {
    var s, u := w.server, t.server;
    && t == w.(server := u, pc := Sending(i, 0, id))
    && u.session == s.session.(chunks := s.session.chunks[i := S.Completed],
                               completedChunks := s.session.completedChunks + 1,
                               bytesReceived := s.session.bytesReceived + |Blob(w.job, i)|,
                               status := S.InProgress)
    && u.temp == Some(S.Patch(s.temp.value, i * w.job.chunkSize, Blob(w.job, i)))
    && u.requests.Keys == s.requests.Keys + {id} && S.At(u, id, S.Answered(true))
    && u.verified == s.verified && u.artifact == s.artifact
  }

  predicate Ready(w: World, i: nat, id: nat) {
    && w.pc == Loop(i) && !w.cancelled && !w.paused && id !in w.server.requests
    && w.server.session.chunkSize > 0 && i < w.job.totalChunks && i < |w.server.session.chunks|
    && w.server.session.chunks[i] == S.Pending && w.server.temp.Some?
    && (w.server.session.status == S.New || w.server.session.status == S.InProgress)
    && S.AsI32(i * w.job.chunkSize / w.server.session.chunkSize) == i && Blob(w.job, i) != []
  }

  // Up to the claim.
  predicate TookClaim(w: World, i: nat, id: nat, t: World)
    requires i < |w.server.session.chunks|
  {
    && t.server.session == w.server.session.(chunks := w.server.session.chunks[i := S.Uploading])
    && t.server.requests.Keys == w.server.requests.Keys + {id}
    && t.server.requests[id] == S.Request(i * w.job.chunkSize, i, Blob(w.job, i), S.Claimed)
    && t == w.(pc := Sending(i, 0, id),
               server := w.server.(session := t.server.session, requests := t.server.requests))
  }

  lemma {:induction false} SmoothClaim(w: World, i: nat, id: nat) returns (es: seq<Event>, t: World)
    requires Ready(w, i, id)
    ensures es == [Top(id), Serve(S.Admit(id)), Serve(S.Claim(id))]
    ensures Possible(w, es) && Run(w, es) == t && TookClaim(w, i, id, t)
  {
    es := [];
    assert Possible(w, es) && Run(w, es) == w;
    hide Run, Possible, Step, Enabled, S.Step, S.Enabled, S.AsI32, Blob;
    DoSend(w, id);
    es := Extend(w, es, Top(id));
    t := Step(w, Top(id));
    S.AdmitIs(t.server, id);
    es, t := DoServe(w, es, t, S.Admit(id));
    S.ClaimIs(t.server, id);
    es, t := DoServe(w, es, t, S.Claim(id));
  }

  predicate TookWork(s: S.Server, id: nat, u: S.Server)
    requires id in s.requests && S.InRange(s, s.requests[id]) && s.temp.Some?
  {
    var q := s.requests[id];
    && u.session == s.session.(chunks := s.session.chunks[q.index := S.Completed],
                               completedChunks := s.session.completedChunks + 1,
                               bytesReceived := s.session.bytesReceived + |q.data|,
                               status := S.InProgress)
    && u.temp == Some(S.Patch(s.temp.value, q.offset, q.data))
    && u.requests.Keys == s.requests.Keys && S.At(u, id, S.Answered(true))
    && u.verified == s.verified && u.artifact == s.artifact
  }

  lemma {:induction false} TookBoth(w: World, i: nat, id: nat, t: World, u: S.Server)
    requires Ready(w, i, id) && TookClaim(w, i, id, t)
    requires TookWork(t.server, id, u)
    ensures Took(w, i, id, t.(server := u))
  {
    hide S.Patch, Blob, S.AsI32;
    assert u.session.chunks == w.server.session.chunks[i := S.Completed];
  }

  // From the claim to the answer, on the server alone.
  lemma {:induction false} SmoothWork(s: S.Server, id: nat) returns (written: S.Server, marked: S.Server, u: S.Server)
    requires s.session.chunkSize > 0 && S.At(s, id, S.Claimed) && S.InRange(s, s.requests[id]) && s.temp.Some?
    requires s.session.status == S.New || s.session.status == S.InProgress
    ensures S.Enabled(s, S.Write(id)) && written == S.Step(s, S.Write(id))
    ensures S.Enabled(written, S.Mark(id)) && marked == S.Step(written, S.Mark(id))
    ensures S.Enabled(marked, S.Count(id)) && u == S.Step(marked, S.Count(id))
    ensures TookWork(s, id, u)
    ensures written.session.chunkSize == marked.session.chunkSize == s.session.chunkSize
  {
    hide S.Step, S.Enabled, S.Patch;
    S.WriteIs(s, id);
    written := S.Step(s, S.Write(id));
    S.MarkIs(written, id);
    marked := S.Step(written, S.Mark(id));
    S.CountIs(marked, id);
    u := S.Step(marked, S.Count(id));
  }

  lemma {:induction false} SmoothChunk(w: World, i: nat, id: nat)
    requires Ready(w, i, id)
    ensures w.server.temp.Some? && Possible(w, Smooth(id)) && Took(w, i, id, Run(w, Smooth(id)))
  {
    var es, t := SmoothClaim(w, i, id);
    var _, _, u := SmoothWork(t.server, id);
    hide Run, Possible, Step, Enabled, S.Step, S.Enabled, S.Patch, S.AsI32, Blob, Ready;
    ReadyTemp(w, i, id);
    TookBoth(w, i, id, t, u);
    hide TookClaim, TookWork, Took;
    var before := t;
    es, t := DoServe(w, es, t, S.Write(id));
    es, t := DoServe(w, es, t, S.Mark(id));
    es, t := DoServe(w, es, t, S.Count(id));
    assert t == before.(server := u);
  }

  lemma {:induction false} ReadyTemp(w: World, i: nat, id: nat)
    requires Ready(w, i, id)
    ensures w.server.temp.Some? && i < |w.server.session.chunks| && w.server.session.chunkSize > 0
    ensures w.server.session.status == S.New || w.server.session.status == S.InProgress
  {
  }

  // ---- Steps of the page ----

  lemma {:induction false} DoClose(t: World)
    requires t.server.session.chunkSize > 0
    ensures Enabled(t, Close) && Step(t, Close) == t.(pc := Ended, referenced := false)
  {
  }

  lemma {:induction false} DoResume(t: World, file: seq<Octet>, r: nat)
    requires t.server.session.chunkSize > 0 && CanResume(t, file)
    ensures Enabled(t, Resume(file, r))
    ensures Step(t, Resume(file, r)) ==
            World(t.server, Job(file, r, t.server.session.totalChunks),
                  Loop(t.server.session.completedChunks), false, false, true, true)
  {
  }

  lemma {:induction false} DoCancel(t: World)
    requires t.server.session.chunkSize > 0 && t.referenced
    ensures Enabled(t, CancelUpload)
    ensures Step(t, CancelUpload) == t.(cancelled := true, paused := false, saved := false, referenced := false)
  {
  }

  lemma {:induction false} CancelArrives(s: S.Server)
    requires s.session.chunkSize > 0
    ensures S.Enabled(s, S.Cancel)
    ensures S.Step(s, S.Cancel) == s.(temp := None, session := s.session.(status := S.Cancelled))
  {
  }

  // Another file of the same size, handed to the session of the first.
  lemma {:induction false} OtherFileResumes(w: World, events: seq<Event>, t: World, other: seq<Octet>, r: nat, id: nat)
    returns (more: seq<Event>, u: World)
    requires Possible(w, events) && Run(w, events) == t && t.server.session.chunkSize > 0
    requires t.saved && t.server.session.status == S.InProgress && |t.server.session.declared| == |other|
    requires t.server.session.completedChunks >= t.server.session.totalChunks && id !in t.server.requests
    ensures more == events + [Close] + [Resume(other, r)] + [Top(id)]
    ensures Possible(w, more) && Run(w, more) == u
    ensures u.pc == Finalizing && u.server == t.server && u.job.file == other
  {
    hide Run, Possible, Step, Enabled;
    DoClose(t);
    more := Extend(w, events, Close);
    DoResume(t.(pc := Ended, referenced := false), other, r);
    more := Extend(w, more, Resume(other, r));
    u := Run(w, more);
    FinishIs(u, id);
    more := Extend(w, more, Top(id));
    u := Run(w, more);
  }

  lemma {:induction false} ServerCompletes(w: World, events: seq<Event>, t: World) returns (more: seq<Event>, u: World)
    requires Possible(w, events) && Run(w, events) == t && t.pc.Finalizing? && t.server.session.chunkSize > 0
    requires S.Live(t.server) && S.AllCompleted(t.server) && t.server.temp == Some(t.server.session.declared)
    ensures more == events + [Serve(S.Verify)] + [Serve(S.Finish)] + [Serve(S.Store)] + [FinalReply(true)]
    ensures Possible(w, more) && Run(w, more) == u
    ensures u.pc == Reported && u.job == t.job && u.server.artifact == Some(t.server.session.declared)
  {
    S.CompleteIs(t.server);
    hide Run, Possible, Step, Enabled, S.Step, S.Enabled, S.AllCompleted;
    more, u := DoServe(w, events, t, S.Verify);
    more, u := DoServe(w, more, u, S.Finish);
    more, u := DoServe(w, more, u, S.Store);
    ReportIs(u);
    more := Extend(w, more, FinalReply(true));
    u := Run(w, more);
  }
}
