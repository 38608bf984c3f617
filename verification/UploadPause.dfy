// What a pause holds back, told by the requests the server gets.
module UploadPause {
  import opened Text
  import S = UploadServer
  import opened UploadClient
  import opened UploadTraces

  // The user lets it be: no resume of the pause, no cancellation, no other upload.
  predicate Quiet(events: seq<Event>) {
    forall k | 0 <= k < |events| :: !events[k].Unpause? && !events[k].CancelUpload? && !events[k].Resume?
  }

  // All requests that t has and w had not are for chunk i of the run.
  predicate OnlyChunk(w: World, t: World, i: nat) {
    forall id | id in t.server.requests && id !in w.server.requests ::
      t.server.requests[id].offset == i * w.job.chunkSize && t.server.requests[id].data == Blob(w.job, i)
  }

  // Paused on the way to chunk n: nothing is sent any more but retries of the one before.
  predicate HeldAt(t: World, n: nat) {
    && t.paused
    && match t.pc
       case Loop(j) => j == n
       case Parked(j) => j == n
       case Sending(j, _, _) => j + 1 == n
       case Backoff(j, _) => j + 1 == n
       case _ => true
  }

  // Nothing is on its way.
  predicate Resting(pc: Pc) {
    pc.Loop? || pc.Parked? || pc.Finalizing? || Stopped(pc)
  }

  lemma {:induction false} KeysAfter(s: S.Server, e: S.Event)
    requires S.Enabled(s, e)
    ensures S.Step(s, e).requests.Keys == s.requests.Keys + if e.Receive? then {e.id} else {}
  {
    hide S.Patch;
  }

  lemma {:induction false} RequestKeeps(s: S.Server, e: S.Event, id: nat)
    requires S.Enabled(s, e) && id in s.requests
    ensures id in S.Step(s, e).requests
    ensures S.Step(s, e).requests[id].offset == s.requests[id].offset && S.Step(s, e).requests[id].data == s.requests[id].data
  {
    hide S.Patch;
  }

  lemma {:induction false} RequestArrives(s: S.Server, e: S.Event)
    requires S.Enabled(s, e) && e.Receive?
    ensures e.id in S.Step(s, e).requests
    ensures S.Step(s, e).requests[e.id].offset == e.offset && S.Step(s, e).requests[e.id].data == e.data
  {
  }

  lemma {:induction false} HeldServer(t: World, e: Event, n: nat)
    requires HeldAt(t, n) && Enabled(t, e) && !e.Unpause? && !e.CancelUpload? && !e.Resume?
    ensures HeldAt(Step(t, e), n) && Step(t, e).job == t.job && Step(t, e).cancelled == t.cancelled
    ensures Sends(t, e) ==> t.pc.Backoff? && t.pc.i + 1 == n && Step(t, e).server == S.Step(t.server, Send(t, t.pc.i, e.id))
    ensures !Sends(t, e) && !e.Serve? ==> Step(t, e).server == t.server
    ensures Resting(t.pc) ==> Resting(Step(t, e).pc)
  {
    hide S.Step, S.Enabled;
  }

  // What a run from w keeps once it is paused before chunk n, with chunk i the one
  // that may be on its way.
  ghost predicate Holding(w: World, t: World, i: nat, n: nat) {
    && HeldAt(t, n) && t.job == w.job && t.cancelled == w.cancelled && OnlyChunk(w, t, i)
    && (n == i + 1 || (n == i && Resting(t.pc)))
    && forall id | id in w.server.requests :: id in t.server.requests
  }

  lemma {:induction false} HeldStep(w: World, t: World, e: Event, i: nat, n: nat)
    requires Holding(w, t, i, n) && Enabled(t, e) && !e.Unpause? && !e.CancelUpload? && !e.Resume?
    ensures Holding(w, Step(t, e), i, n)
  {
    var u := Step(t, e);
    HeldServer(t, e, n);
    hide Step, S.Step, S.Enabled, Blob, HeldAt;
    if Sends(t, e) {
      var sent := Send(t, t.pc.i, e.id);
      KeysAfter(t.server, sent);
      RequestArrives(t.server, sent);
      forall id | id in t.server.requests
        ensures u.server.requests[id].offset == t.server.requests[id].offset && u.server.requests[id].data == t.server.requests[id].data
      {
        RequestKeeps(t.server, sent, id);
      }
    } else if e.Serve? {
      ServedKeeps(t, e);
    }
  }

  lemma {:induction false} ServedKeeps(t: World, e: Event)
    requires Enabled(t, e) && e.Serve?
    ensures Step(t, e).server.requests.Keys == t.server.requests.Keys
    ensures forall id | id in t.server.requests ::
              && Step(t, e).server.requests[id].offset == t.server.requests[id].offset
              && Step(t, e).server.requests[id].data == t.server.requests[id].data
  {
    KeysAfter(t.server, e.e);
    hide S.Step, S.Enabled;
    forall id | id in t.server.requests
      ensures Step(t, e).server.requests[id].offset == t.server.requests[id].offset
      ensures Step(t, e).server.requests[id].data == t.server.requests[id].data
    {
      RequestKeeps(t.server, e.e, id);
    }
  }

  lemma {:induction false} HeldRun(w: World, t: World, events: seq<Event>, i: nat, n: nat)
    requires Holding(w, t, i, n) && Possible(t, events) && Quiet(events)
    ensures Holding(w, Run(t, events), i, n)
    decreases |events|
  {
    hide Step, Enabled, Holding;
    if events != [] {
      HeldStep(w, t, events[0], i, n);
      HeldRun(w, Step(t, events[0]), events[1..], i, n);
    }
  }

  // The chunk a run is at, and whether it is on its way.
  predicate WorksAt(pc: Pc, i: nat) {
    match pc
    case Loop(j) => j == i
    case Sending(j, _, _) => j == i
    case Backoff(j, _) => j == i
    case _ => false
  }

  lemma {:induction false} PauseStarts(w: World, i: nat)
    requires WorksAt(w.pc, i) && Enabled(w, Pause)
    ensures Holding(w, Step(w, Pause), i, if w.pc.Loop? then i else i + 1)
  {
    hide S.Enabled;
  }

  // In every run that begins with a pause and lets it be, the server gets no request
  // but retries of the chunk that was on its way, and none if the loop was between two
  // chunks; and a page that still works stands before the next chunk.
  lemma {:induction false} PauseHolds(w: World, events: seq<Event>, i: nat)
    requires WorksAt(w.pc, i) && Possible(w, events) && events != [] && events[0] == Pause && Quiet(events)
    ensures var t := Run(w, events);
            && OnlyChunk(w, t, i)
            && (w.pc.Loop? ==> t.server.requests.Keys == w.server.requests.Keys)
            && (t.pc.Loop? || t.pc.Parked? ==> t.pc.i == if w.pc.Loop? then i else i + 1)
  {
    var n := if w.pc.Loop? then i else i + 1;
    PauseStarts(w, i);
    hide Step, Enabled;
    HeldRun(w, Step(w, Pause), events[1..], i, n);
    if w.pc.Loop? {
      PausedSendsNothing(w, Step(w, Pause), events[1..], i);
    }
  }

  lemma {:induction false} PausedSendsNothing(w: World, t: World, events: seq<Event>, i: nat)
    requires Holding(w, t, i, i) && Possible(t, events) && Quiet(events)
    requires t.server.requests.Keys == w.server.requests.Keys
    ensures Run(t, events).server.requests.Keys == w.server.requests.Keys
    decreases |events|
  {
    hide Step, Enabled;
    if events != [] {
      HeldStep(w, t, events[0], i, i);
      RestingKeys(t, events[0], i);
      PausedSendsNothing(w, Step(t, events[0]), events[1..], i);
    }
  }

  lemma {:induction false} RestingKeys(t: World, e: Event, n: nat)
    requires HeldAt(t, n) && Resting(t.pc) && Enabled(t, e) && !e.Unpause? && !e.CancelUpload? && !e.Resume?
    ensures Step(t, e).server.requests.Keys == t.server.requests.Keys
  {
    HeldServer(t, e, n);
    if e.Serve? {
      ServedKeeps(t, e);
    }
    hide Step, S.Enabled;
  }

  // The loop head waits instead of sending.
  lemma {:induction false} HeadWaits(t: World, id: nat)
    requires t.paused && !t.cancelled && t.pc.Loop? && t.pc.i < t.job.totalChunks && Enabled(t, Top(id))
    ensures Step(t, Top(id)) == t.(pc := Parked(t.pc.i))
  {
    hide S.Enabled;
  }

  lemma {:induction false} UnpauseIs(t: World)
    requires t.paused && t.server.session.chunkSize > 0
    ensures Enabled(t, Unpause) && Step(t, Unpause) == t.(paused := false)
  {
  }

  lemma {:induction false} UnparkIs(t: World, id: nat)
    requires t.pc.Parked? && !t.paused && !t.cancelled && t.server.session.chunkSize > 0 && id !in t.server.requests
    ensures Enabled(t, Unpark(id))
    ensures Step(t, Unpark(id)) ==
            t.(pc := Sending(t.pc.i, 0, id), server := S.Step(t.server, Send(t, t.pc.i, id)))
  {
    hide S.Step, Blob;
  }

  // After the answer of the chunk on its way the next loop head sends nothing, and
  // lifting the pause sends exactly the chunk it stood before.
  lemma {:induction false} UnpauseSends(w: World, events: seq<Event>, i: nat, id: nat, id': nat)
    requires WorksAt(w.pc, i) && Possible(w, events) && events != [] && events[0] == Pause && Quiet(events)
    requires !w.cancelled && w.server.session.chunkSize > 0
    requires var t := Run(w, events);
             t.pc.Loop? && t.pc.i < t.job.totalChunks && id !in t.server.requests && id' !in t.server.requests
    ensures var n := if w.pc.Loop? then i else i + 1;
            var t := Run(w, events);
            && Possible(t, [Top(id)]) && Run(t, [Top(id)]).server == t.server && Run(t, [Top(id)]).pc == Parked(n)
            && Possible(t, [Top(id), Unpause, Unpark(id')])
            && var u := Run(t, [Top(id), Unpause, Unpark(id')]);
               && u.server.requests.Keys == t.server.requests.Keys + {id'}
               && u.server.requests[id'].offset == n * w.job.chunkSize && u.server.requests[id'].data == Blob(w.job, n)
               && u.pc == Sending(n, 0, id')
  {
    var n := if w.pc.Loop? then i else i + 1;
    var t := Run(w, events);
    PauseStarts(w, i);
    HeldRun(w, Step(w, Pause), events[1..], i, n);
    assert t.paused && !t.cancelled && t.job == w.job && t.pc == Loop(n);
    ShapeOverRun(w, events);
    LiftsPause(t, id, id');
  }

  lemma {:induction false} ShapeOverRun(w: World, events: seq<Event>)
    requires Possible(w, events)
    ensures SameShape(w.server, Run(w, events).server)
    decreases |events|
  {
    hide Step, Enabled;
    if events != [] {
      WorldShape(w, events[0]);
      ShapeOverRun(Step(w, events[0]), events[1..]);
    }
  }

  lemma {:induction false} LiftsPause(t: World, id: nat, id': nat)
    requires t.paused && !t.cancelled && t.pc.Loop? && t.pc.i < t.job.totalChunks && t.server.session.chunkSize > 0
    requires id !in t.server.requests && id' !in t.server.requests
    ensures Possible(t, [Top(id)]) && Run(t, [Top(id)]).server == t.server && Run(t, [Top(id)]).pc == Parked(t.pc.i)
    ensures Possible(t, [Top(id), Unpause, Unpark(id')])
    ensures var u := Run(t, [Top(id), Unpause, Unpark(id')]);
            && u.server.requests.Keys == t.server.requests.Keys + {id'}
            && u.server.requests[id'].offset == t.pc.i * t.job.chunkSize && u.server.requests[id'].data == Blob(t.job, t.pc.i)
            && u.pc == Sending(t.pc.i, 0, id')
  {
    assert Possible(t, []) && Run(t, []) == t;
    assert Enabled(t, Top(id));
    HeadWaits(t, id);
    hide Possible, Run, Step, Enabled, Blob, S.Step, S.Enabled;
    var es := Extend(t, [], Top(id));
    assert es == [Top(id)];
    var u := Run(t, es);
    UnpauseIs(u);
    es := Extend(t, es, Unpause);
    u := Run(t, es);
    UnparkIs(u, id');
    es := Extend(t, es, Unpark(id'));
    assert es == [Top(id), Unpause, Unpark(id')];
    var sent := Send(u, u.pc.i, id');
    assert S.Enabled(u.server, sent) by { Arrives(u.server, id', sent); }
    KeysAfter(u.server, sent);
    RequestArrives(u.server, sent);
  }

  lemma {:induction false} Arrives(s: S.Server, id: nat, e: S.Event)
    requires s.session.chunkSize > 0 && e.Receive? && e.id == id && id !in s.requests
    ensures S.Enabled(s, e)
  {
  }
}
