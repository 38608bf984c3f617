// The chunk loop of the upload hook as the page runs it, attempt by attempt.
module UploadLoop {
  import opened Text
  import S = UploadServer
  import opened UploadClient

  // What becomes of one attempt: the server handles it and the answer comes back, it
  // is lost on the way, or the session turns out to be expired.
  datatype Weather = Through | Lost | Expired

  // The weather of each attempt, by chunk and attempt.
  type Forecast = (nat, nat) -> Weather

  ghost predicate Fair(net: Forecast) {
    forall i, attempt :: net(i, attempt) == Through
  }

  // One run that has got from w to t, and still feeds the session.
  ghost predicate Ran(w: World, events: seq<Event>, t: World, m: nat) {
    && Possible(w, events) && Run(w, events) == t && NoResume(events)
    && Fed(t.server, m) && JobOk(t, m)
  }

  lemma {:induction false} On(w: World, events: seq<Event>, t: World, m: nat, e: Event)
    returns (more: seq<Event>, u: World, n: nat)
    requires Ran(w, events, t, m) && Enabled(t, e) && !e.Resume?
    ensures u == Step(t, e) && n == NextOf(m, e) && Ran(w, more, u, n)
  {
    hide Step, Enabled, Fed, JobOk;
    more := Extend(w, events, e);
    u, n := Step(t, e), NextOf(m, e);
    StepKeeps(t, m, e);
  }

  // One database statement or file operation, from server state s, of a run at page state t.
  lemma {:induction false} OnServe(w: World, events: seq<Event>, t: World, s: S.Server, m: nat, e: S.Event)
    returns (more: seq<Event>, n: nat)
    requires Ran(w, events, t.(server := s), m) && S.Enabled(s, e) && !e.Receive?
    ensures Ran(w, more, t.(server := S.Step(s, e)), n)
  {
    var at := t.(server := s);
    assert Enabled(at, Serve(e)) && Step(at, Serve(e)) == t.(server := S.Step(s, e));
    hide Ran, Step, Enabled;
    var u;
    more, u, n := On(w, events, at, m, Serve(e));
  }

  lemma {:induction false} IndexInRange(w: World, events: seq<Event>, t: World, m: nat, id: nat)
    requires Ran(w, events, t, m) && id in t.server.requests
    ensures S.InRange(t.server, t.server.requests[id]) && t.server.session.chunkSize > 0
  {
    assert RequestOk(t.server, m, t.server.requests[id]);
  }

  // A request from its arrival to its answer, with nothing in between.
  method Handle(s: S.Server, id: nat, ghost w: World, ghost events: seq<Event>, ghost t: World, ghost m: nat)
    returns (r: S.Server, ghost more: seq<Event>, ghost n: nat)
    requires Ran(w, events, t, m) && t.server == s && S.At(s, id, S.Sent)
    ensures Ran(w, more, t.(server := r), n)
    ensures r.requests.Keys == s.requests.Keys && r.requests[id].phase.Answered?
    ensures S.Clear(s) ==> S.Clear(r) && r.requests[id].phase.ok
  {
    hide Ran, S.Step, S.Enabled;
    r := s;
    IndexInRange(w, events, t, m, id);
    assert t.(server := s) == t;
    S.AdmitIs(r, id);
    more, n := OnServe(w, events, t, r, m, S.Admit(id));
    r := S.Step(r, S.Admit(id));
    if r.requests[id].phase.Answered? {
      return;
    }
    S.ClaimIs(r, id);
    more, n := OnServe(w, more, t, r, n, S.Claim(id));
    r := S.Step(r, S.Claim(id));
    if r.requests[id].phase.Answered? {
      return;
    }
    r, more, n := WriteChunk(r, id, w, more, t, n);
  }

  // The claimed chunk is written, marked and counted.
  method WriteChunk(s: S.Server, id: nat, ghost w: World, ghost events: seq<Event>, ghost t: World, ghost m: nat)
    returns (r: S.Server, ghost more: seq<Event>, ghost n: nat)
    requires Ran(w, events, t.(server := s), m) && S.At(s, id, S.Claimed)
    requires S.InRange(s, s.requests[id]) && s.session.chunkSize > 0
    ensures Ran(w, more, t.(server := r), n)
    ensures r.requests.Keys == s.requests.Keys && r.requests[id].phase.Answered?
    ensures s.temp.Some? ==>
              && r.requests[id].phase.ok && r.temp.Some? && (S.Live(s) ==> S.Live(r))
              && r.session.chunks == s.session.chunks[s.requests[id].index := S.Completed]
  {
    hide Ran, S.Step, S.Enabled, S.Patch;
    r := s;
    S.WriteIs(r, id);
    more, n := OnServe(w, events, t, r, m, S.Write(id));
    r := S.Step(r, S.Write(id));
    if r.requests[id].phase.Answered? {
      return;
    }
    S.MarkIs(r, id);
    more, n := OnServe(w, more, t, r, n, S.Mark(id));
    r := S.Step(r, S.Mark(id));
    S.CountIs(r, id);
    more, n := OnServe(w, more, t, r, n, S.Count(id));
    r := S.Step(r, S.Count(id));
  }

  // What a run needs before it sends chunk i.
  predicate Sendable(w: World, i: nat, attempt: nat) {
    && i < w.job.totalChunks
    && (if attempt == 0 then w.pc == Loop(i) && !w.paused && !w.cancelled else w.pc == Backoff(i, attempt - 1))
  }

  function Sender(attempt: nat, id: nat): Event {
    if attempt == 0 then Top(id) else Retry(id)
  }

  // The step that sends.
  lemma {:induction false} SendIs(w: World, events: seq<Event>, t: World, m: nat, i: nat, attempt: nat, id: nat)
    returns (more: seq<Event>, u: World)
    requires Ran(w, events, t, m) && Sendable(t, i, attempt) && id !in t.server.requests
    ensures Ran(w, more, u, m)
    ensures u == t.(pc := Sending(i, attempt, id),
                    server := t.server.(requests := t.server.requests[id :=
                                S.Request(i * t.job.chunkSize, i, Blob(t.job, i), S.Sent)]))
  {
    FedShape(t.server, m);
    var e := Sender(attempt, id);
    assert Enabled(t, e) && Sends(t, e) && Step(t, e) == Attempt(t, i, attempt, id);
    SentIs(t, m, i, attempt, id);
    hide Ran, Step, Enabled, S.Step, Blob;
    var n;
    more, u, n := On(w, events, t, m, e);
  }

  lemma {:induction false} SentIs(w: World, m: nat, i: nat, attempt: nat, id: nat)
    requires Fed(w.server, m) && w.server.session.chunkSize > 0 && id !in w.server.requests
    requires w.job.chunkSize == w.server.session.chunkSize && i < |w.server.session.chunks|
    requires AgreeFrom(w.job.file, w.server.session.declared, End(w.server, i))
    ensures Attempt(w, i, attempt, id) ==
            w.(pc := Sending(i, attempt, id),
               server := w.server.(requests := w.server.requests[id :=
                           S.Request(i * w.job.chunkSize, i, Blob(w.job, i), S.Sent)]))
  {
    BlobIsSlice(w, m, i);
    IndexOfSlice(w.server, i, i * w.job.chunkSize, Blob(w.job, i));
    hide S.AsI32, Blob;
  }

  class Hook {
    var server: S.Server
    var job: Job
    var pc: Pc
    var paused: bool
    var cancelled: bool
    var saved: bool
    var referenced: bool
    var nextId: nat

    ghost function Now(): World
      reads this
    {
      World(server, job, pc, paused, cancelled, saved, referenced)
    }

    // The page has come here from w, and request numbers are fresh.
    ghost predicate Valid(w: World, events: seq<Event>, m: nat)
      reads this
    {
      Ran(w, events, Now(), m) && forall id | id in server.requests :: id < nextId
    }

    // await uploadChunk(...)
    method UploadChunk(i: nat, attempt: nat, weather: Weather, ghost w: World, ghost before: seq<Event>, ghost m: nat)
      returns (ok: bool, ghost events: seq<Event>, ghost n: nat)
      requires Valid(w, before, m) && Sendable(Now(), i, attempt)
      modifies this
      ensures Valid(w, events, n)
      ensures Now() == old(Now()).(server := server, pc := Sending(i, attempt, old(nextId)))
      ensures ok ==> S.At(server, old(nextId), S.Answered(true))
      ensures S.Clear(old(server)) ==> S.Clear(server) && (weather == Through ==> ok)
      ensures weather != Through ==> !ok
    {
      hide Ran, Blob;
      ghost var u;
      var id := nextId;
      events, u := SendIs(w, before, Now(), m, i, attempt, id);
      server := server.(requests := server.requests[id := S.Request(i * job.chunkSize, i, Blob(job, i), S.Sent)]);
      pc, nextId := Sending(i, attempt, id), id + 1;
      ok, n := false, m;
      if weather == Through {
        server, events, n := Handle(server, id, w, events, Now(), m);
        ok := server.requests[id].phase.ok;
      }
    }

    // The attempts of one chunk: it leaves at the next chunk, or ended.
    method TryChunk(i: nat, net: Forecast, ghost w: World, ghost before: seq<Event>, ghost m: nat)
      returns (ghost events: seq<Event>, ghost n: nat)
      requires Valid(w, before, m) && Sendable(Now(), i, 0)
      modifies this
      ensures Valid(w, events, n)
      ensures pc == Loop(i + 1) || pc.Ended?
      ensures job == old(job) && paused == old(paused) && cancelled == old(cancelled)
      ensures Fair(net) && S.Clear(old(server)) ==> pc == Loop(i + 1) && S.Clear(server)
    {
      hide Ran, Step, Enabled, S.Clear;
      ghost var u;
      events, n := before, m;
      var attempt := 0;
      while attempt < MAX_CHUNK_RETRIES
        invariant attempt <= MAX_CHUNK_RETRIES
        invariant Valid(w, events, n)
        invariant attempt < MAX_CHUNK_RETRIES ==> Sendable(Now(), i, attempt)
        invariant attempt == MAX_CHUNK_RETRIES ==> pc.Ended?
        invariant job == old(job) && paused == old(paused) && cancelled == old(cancelled)
        invariant Fair(net) && S.Clear(old(server)) ==> S.Clear(server) && attempt == 0
      {
        var weather := net(i, attempt);
        var ok;
        ok, events, n := UploadChunk(i, attempt, weather, w, events, n);
        ShapeOf(w, events, Now(), n);
        if ok {
          ReplyIs(Now());
          events, u, n := On(w, events, Now(), n, Reply);
          pc := Loop(i + 1);
          return;
        }
        FailureIs(Now(), weather == Expired);
        events, u, n := On(w, events, Now(), n, Failure(weather == Expired));
        if weather == Expired {
          pc, saved, referenced := Ended, false, false;
          return;
        }
        pc := if attempt < MAX_CHUNK_RETRIES - 1 then Backoff(i, attempt) else Ended;
        attempt := attempt + 1;
      }
    }

    method UploadChunks(startFromChunk: nat, net: Forecast, ghost m: nat) returns (ghost events: seq<Event>, ghost n: nat)
      requires Valid(Now(), [], m) && pc == Loop(startFromChunk)
      modifies this
      ensures Valid(old(Now()), events, n)
      ensures pc.Finalizing? || pc.Ended? || (pc.Parked? && paused)
      ensures pc.Finalizing? ==> S.AllCompleted(server) && (server.temp.Some? ==> server.temp.value == server.session.declared)
      ensures Fair(net) && S.Clear(old(server)) && !old(paused) && !old(cancelled) ==> pc.Finalizing? && S.Clear(server)
    {
      hide Ran, Step, Enabled, S.Clear, S.AllCompleted, Fair;
      ghost var w, u := Now(), Now();
      events, n := [], m;
      var i: nat := startFromChunk;
      while i < job.totalChunks
        invariant Valid(w, events, n) && pc == Loop(i)
        invariant job == old(job) && paused == old(paused) && cancelled == old(cancelled)
        invariant Fair(net) && S.Clear(old(server)) ==> S.Clear(server)
      {
        ShapeOf(w, events, Now(), n);
        if cancelled || paused {
          HeldIs(Now(), nextId);
          events, u, n := On(w, events, Now(), n, Top(nextId));
          pc := if cancelled then Ended else Parked(i);
          return;
        }
        events, n := TryChunk(i, net, w, events, n);
        if pc.Ended? {
          return;
        }
        i := i + 1;
      }
      ShapeOf(w, events, Now(), n);
      FinishIs(Now(), nextId);
      events, u, n := On(w, events, Now(), n, Top(nextId));
      pc := Finalizing;
      RanToEnd(w, events, Now(), n);
    }

    // await completeUploadSession(...), and what follows.
    method Complete(ghost w: World, ghost before: seq<Event>, ghost m: nat) returns (ok: bool, ghost events: seq<Event>, ghost n: nat)
      requires Valid(w, before, m) && pc == Finalizing
      modifies this
      ensures Valid(w, events, n)
      ensures ok <==> pc == Reported
      ensures ok ==> server.artifact == Some(server.session.declared) && !saved && !referenced
      ensures S.Clear(old(server)) ==> ok
    {
      hide Ran, Step, Enabled, S.Step, S.Enabled;
      ghost var u;
      events, n := before, m;
      RanToEnd(w, events, Now(), n);
      ShapeOf(w, events, Now(), n);
      ok := S.Live(server) && server.temp.Some?;
      if ok {
        events, u, n := ServesComplete(w, events, Now(), n);
        server := server.(verified := true);
        server := server.(session := server.session.(status := S.Finished));
        server := server.(artifact := server.temp, temp := None);
        ReportIs(Now());
        events, u, n := On(w, events, Now(), n, FinalReply(true));
        pc, saved, referenced := Reported, false, false;
      } else {
        RefusedIs(Now());
        events, u, n := On(w, events, Now(), n, FinalReply(false));
        pc := Ended;
      }
    }
  }

  lemma {:induction false} ServesComplete(w: World, events: seq<Event>, t: World, m: nat)
    returns (more: seq<Event>, u: World, n: nat)
    requires Ran(w, events, t, m) && t.server.session.chunkSize > 0
    requires S.Live(t.server) && S.AllCompleted(t.server) && t.server.temp == Some(t.server.session.declared)
    ensures u == t.(server := t.server.(verified := true, session := t.server.session.(status := S.Finished),
                                        artifact := t.server.temp, temp := None))
    ensures Ran(w, more, u, n)
  {
    var s := t.server;
    S.CompleteIs(s);
    hide Ran, S.Step, S.Enabled, S.AllCompleted;
    assert t.(server := s) == t;
    more, n := OnServe(w, events, t, s, m, S.Verify);
    s := S.Step(s, S.Verify);
    more, n := OnServe(w, more, t, s, n, S.Finish);
    s := S.Step(s, S.Finish);
    more, n := OnServe(w, more, t, s, n, S.Store);
    u := t.(server := S.Step(s, S.Store));
  }

  lemma {:induction false} RefusedIs(t: World)
    requires t.server.session.chunkSize > 0 && t.pc.Finalizing?
    ensures Enabled(t, FinalReply(false)) && Step(t, FinalReply(false)) == t.(pc := Ended)
  {
  }

  lemma {:induction false} ShapeOf(w: World, events: seq<Event>, t: World, m: nat)
    requires Ran(w, events, t, m)
    ensures t.server.session.chunkSize > 0
  {
    FedShape(t.server, m);
  }

  lemma {:induction false} RanToEnd(w: World, events: seq<Event>, t: World, m: nat)
    requires Ran(w, events, t, m) && t.pc.Finalizing?
    ensures S.AllCompleted(t.server)
    ensures t.server.temp.Some? ==> t.server.temp.value == t.server.session.declared
  {
    AtCompletion(t, m);
  }
}
