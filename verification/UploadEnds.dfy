// How often a chunk is sent, and when an upload can be resumed.
module UploadEnds {
  import opened Text
  import S = UploadServer
  import opened UploadClient
  import opened UploadTraces

  // ---- Three attempts ----

  // The requests that a run sends for chunk i.
  function Attempts(w: World, events: seq<Event>, i: nat): nat
    requires Possible(w, events)
    decreases |events|
  {
    if events == [] then 0
    else (if Sends(w, events[0]) && w.pc.i == i then 1 else 0) + Attempts(Step(w, events[0]), events[1..], i)
  }

  // Those it may yet send.
  function Left(pc: Pc, i: nat): int {
    match pc
    case Loop(j) => if j <= i then 3 else 0
    case Parked(j) => if j <= i then 3 else 0
    case Sending(j, attempt, _) => if j < i then 3 else if j == i then 2 - attempt else 0
    case Backoff(j, attempt) => if j < i then 3 else if j == i then 2 - attempt else 0
    case _ => 0
  }

  predicate Numbered(pc: Pc) {
    match pc
    case Sending(_, attempt, _) => attempt <= 2
    case Backoff(_, attempt) => attempt <= 1
    case _ => true
  }

  lemma {:induction false} StepLeft(w: World, e: Event, i: nat)
    requires Enabled(w, e) && !e.Resume? && Numbered(w.pc)
    ensures Numbered(Step(w, e).pc)
    ensures Left(Step(w, e).pc, i) + (if Sends(w, e) && w.pc.i == i then 1 else 0) <= Left(w.pc, i)
  {
    hide S.Step, S.Enabled, Blob;
  }

  lemma {:induction false} AttemptsLeft(w: World, events: seq<Event>, i: nat)
    requires Possible(w, events) && NoResume(events) && Numbered(w.pc)
    ensures 0 <= Left(Run(w, events).pc, i) <= Left(w.pc, i) - Attempts(w, events, i)
    decreases |events|
  {
    hide Step, Enabled, Sends;
    if events != [] {
      StepLeft(w, events[0], i);
      AttemptsLeft(Step(w, events[0]), events[1..], i);
    }
  }

  // No chunk is sent more than three times by one call of `upload`.
  lemma {:induction false} ThreeAttempts(w: World, events: seq<Event>, i: nat)
    requires Possible(w, events) && NoResume(events) && w.pc.Loop?
    ensures Attempts(w, events, i) <= 3
  {
    AttemptsLeft(w, events, i);
  }

  // The chunk at the loop head fails as often as it is sent.
  function Failing(id: nat, n: nat): seq<Event> {
    if n == 0 then [] else if n == 1 then [Top(id), Failure(false)] else Failing(id, n - 1) + [Retry(id + n - 1)] + [Failure(false)]
  }

  lemma {:induction false} FailureOf(t: World)
    requires t.server.session.chunkSize > 0 && t.pc.Sending?
    ensures Enabled(t, Failure(false))
    ensures Step(t, Failure(false)) ==
            t.(pc := if t.pc.attempt < 2 then Backoff(t.pc.i, t.pc.attempt) else Ended)
  {
  }

  lemma {:induction false} SentAgain(t: World, id: nat)
    requires t.server.session.chunkSize > 0 && id !in t.server.requests
    requires t.pc.Backoff? || (t.pc.Loop? && t.pc.i < t.job.totalChunks && !t.paused && !t.cancelled)
    ensures var e := if t.pc.Loop? then Top(id) else Retry(id);
            var u := Step(t, e);
            && Enabled(t, e) && Sends(t, e)
            && u.pc == Sending(t.pc.i, if t.pc.Loop? then 0 else t.pc.attempt + 1, id)
            && u.server.requests.Keys == t.server.requests.Keys + {id}
            && u.server.session == t.server.session
  {
    hide Blob;
  }

  lemma {:induction false} AttemptsSplit(w: World, events: seq<Event>, e: Event, i: nat)
    requires Possible(w, events) && Possible(w, events + [e])
    ensures Enabled(Run(w, events), e)
    ensures Attempts(w, events + [e], i)
         == Attempts(w, events, i) + if Sends(Run(w, events), e) && Run(w, events).pc.i == i then 1 else 0
    decreases |events|
  {
    hide Step, Enabled, Sends;
    if events == [] {
      assert events + [e] == [e] && [e][1..] == [];
    } else {
      assert (events + [e])[1..] == events[1..] + [e];
      AttemptsSplit(Step(w, events[0]), events[1..], e, i);
    }
  }

  // After one failure and after two it is sent again, after the third the upload ends.
  lemma {:induction false} FailsThrice(w: World, id: nat, n: nat)
    requires w.server.session.chunkSize > 0 && w.pc.Loop? && w.pc.i < w.job.totalChunks && !w.paused && !w.cancelled
    requires 1 <= n <= 3 && forall k | k in w.server.requests :: k < id
    ensures Possible(w, Failing(id, n)) && Attempts(w, Failing(id, n), w.pc.i) == n
    ensures var t := Run(w, Failing(id, n));
            && t.pc == (if n == 3 then Ended else Backoff(w.pc.i, n - 1))
            && t.server.session == w.server.session
            && forall k | k in t.server.requests :: k < id + n
  {
    var es, t := [], w;
    assert Possible(w, es) && Run(w, es) == w && Attempts(w, es, w.pc.i) == 0;
    if n > 1 {
      FailsThrice(w, id, n - 1);
      es := Failing(id, n - 1);
      t := Run(w, es);
    }
    hide Possible, Run, Attempts, Step, Enabled, Sends;
    var e := if n == 1 then Top(id) else Retry(id + n - 1);
    SentAgain(t, id + n - 1);
    var more := Extend(w, es, e);
    AttemptsSplit(w, es, e, w.pc.i);
    t := Step(t, e);
    FailureOf(t);
    var most := Extend(w, more, Failure(false));
    AttemptsSplit(w, more, Failure(false), w.pc.i);
    NoneSent(t);
    assert most == Failing(id, n);
  }

  lemma {:induction false} NoneSent(t: World)
    requires Enabled(t, Failure(false))
    ensures !Sends(t, Failure(false))
  {
  }

  // ---- When an upload can be resumed ----

  lemma {:induction false} StepForgotten(w: World, e: Event)
    requires Enabled(w, e) && !w.saved
    ensures !e.Resume? && !Step(w, e).saved
  {
    hide S.Step, S.Enabled, Blob;
  }

  lemma {:induction false} Forgotten(w: World, events: seq<Event>)
    requires Possible(w, events) && !w.saved
    ensures NoResume(events)
    decreases |events|
  {
    if events != [] {
      StepForgotten(w, events[0]);
      hide Step, Enabled;
      Forgotten(Step(w, events[0]), events[1..]);
      assert events == [events[0]] + events[1..];
    }
  }

  // The page forgets the session when the upload is complete, when the server says that
  // the session is expired, and when the user cancels a session the page refers to.
  predicate Forgets(w: World, e: Event) {
    e == FinalReply(true) || e == Failure(true) || (e == CancelUpload && w.referenced)
  }

  lemma {:induction false} SavedAfter(w: World, e: Event)
    requires Enabled(w, e) && w.saved
    ensures Step(w, e).saved <==> !Forgets(w, e)
  {
    hide S.Step, S.Enabled, Blob;
  }

  // It is never resumed after that.
  lemma {:induction false} NeverResumed(w: World, e: Event, events: seq<Event>)
    requires Possible(w, [e] + events) && Forgets(w, e)
    ensures NoResume(events)
  {
    assert ([e] + events)[1..] == events;
    if w.saved {
      SavedAfter(w, e);
    } else {
      StepForgotten(w, e);
    }
    Forgotten(Step(w, e), events);
  }

  predicate NeverForgets(w: World, events: seq<Event>)
    requires Possible(w, events)
    decreases |events|
  {
    events == [] || (!Forgets(w, events[0]) && NeverForgets(Step(w, events[0]), events[1..]))
  }

  lemma {:induction false} SavedIff(w: World, events: seq<Event>)
    requires Possible(w, events) && w.saved
    ensures NeverForgets(w, events) <==> Run(w, events).saved
    decreases |events|
  {
    hide Step, Enabled, Forgets;
    if events != [] {
      SavedAfter(w, events[0]);
      if Step(w, events[0]).saved {
        SavedIff(Step(w, events[0]), events[1..]);
      } else {
        StaysForgotten(Step(w, events[0]), events[1..]);
      }
    }
  }

  lemma {:induction false} StaysForgotten(w: World, events: seq<Event>)
    requires Possible(w, events) && !w.saved
    ensures !Run(w, events).saved
    decreases |events|
  {
    if events != [] {
      StepForgotten(w, events[0]);
      hide Step, Enabled;
      StaysForgotten(Step(w, events[0]), events[1..]);
    }
  }

  lemma {:induction false} ServedStaysClosed(w: World, events: seq<Event>)
    requires Possible(w, events) && w.pc.Ended? && !w.referenced
    requires forall k | 0 <= k < |events| :: events[k].Serve? || events[k] == CancelUpload
    ensures Run(w, events).saved == w.saved && Run(w, events).pc == Ended
    decreases |events|
  {
    if events != [] {
      ClosedStep(w, events[0]);
      assert forall k | 0 <= k < |events[1..]| :: events[1..][k] == events[k + 1];
      hide Step, Enabled;
      ServedStaysClosed(Step(w, events[0]), events[1..]);
    }
  }

  lemma {:induction false} ClosedStep(w: World, e: Event)
    requires Enabled(w, e) && w.pc.Ended? && !w.referenced && (e.Serve? || e == CancelUpload)
    ensures var t := Step(w, e);
            t.pc.Ended? && !t.referenced && t.saved == w.saved
  {
    hide S.Step, S.Enabled;
  }

  // A page that was closed and opened again has no session to cancel: whatever it
  // cancels and the server does, the saved session stays for the next upload.
  lemma {:induction false} ClosedCancelsNothing(w: World, events: seq<Event>)
    requires Possible(w, [Close] + events)
    requires forall k | 0 <= k < |events| :: events[k].Serve? || events[k] == CancelUpload
    ensures Run(w, [Close] + events).saved == w.saved && Run(w, [Close] + events).pc == Ended
  {
    assert ([Close] + events)[1..] == events;
    ServedStaysClosed(Step(w, Close), events);
  }

  // From the call that creates the session, over every run: once the page is closed, the
  // next upload of a file takes the session up exactly if nothing has made the page
  // forget it, the server has it in progress, and the file is of its size; it starts at
  // the counter, neither paused nor cancelled.
  lemma {:induction false} ResumesIff(file: seq<Octet>, chunkSize: nat, events: seq<Event>, again: seq<Octet>, r: nat)
    requires Open(file, chunkSize).Some? && Possible(Open(file, chunkSize).value, events + [Close])
    ensures var w := Open(file, chunkSize).value;
            var t := Run(w, events + [Close]);
            && Possible(w, events) && t.server == Run(w, events).server
            && (Enabled(t, Resume(again, r)) <==>
                  && NeverForgets(w, events)
                  && t.server.session.status == S.InProgress && |again| == |file|)
            && (Enabled(t, Resume(again, r)) ==>
                  var u := Step(t, Resume(again, r));
                  && u.server == t.server && u.job == Job(again, r, t.server.session.totalChunks)
                  && u.pc == Loop(t.server.session.completedChunks) && !u.paused && !u.cancelled)
  {
    var w := Open(file, chunkSize).value;
    assert w.saved && w.server.session.declared == file && w.server.session.chunkSize > 0;
    hide Open;
    Prefix(w, events, Close);
    SavedIff(w, events);
    DeclaredStays(w, events);
    var t := Run(w, events);
    hide Possible, Run, NeverForgets;
    ResumeAt(t, again, r);
  }

  lemma {:induction false} ResumeAt(t: World, again: seq<Octet>, r: nat)
    requires t.server.session.chunkSize > 0
    ensures Enabled(t, Close) && Step(t, Close).server == t.server
    ensures var u := Step(t, Close);
            && (Enabled(u, Resume(again, r)) <==>
                  t.saved && t.server.session.status == S.InProgress && |again| == |t.server.session.declared|)
            && (Enabled(u, Resume(again, r)) ==>
                  && Step(u, Resume(again, r)).server == t.server
                  && Step(u, Resume(again, r)).job == Job(again, r, t.server.session.totalChunks)
                  && Step(u, Resume(again, r)).pc == Loop(t.server.session.completedChunks)
                  && !Step(u, Resume(again, r)).paused && !Step(u, Resume(again, r)).cancelled)
  {
  }

  lemma {:induction false} Prefix(w: World, events: seq<Event>, e: Event)
    requires Possible(w, events + [e])
    ensures Possible(w, events) && Enabled(Run(w, events), e) && Run(w, events + [e]) == Step(Run(w, events), e)
    decreases |events|
  {
    hide Step, Enabled;
    if events == [] {
      assert events + [e] == [e] && [e][1..] == [];
    } else {
      assert (events + [e])[1..] == events[1..] + [e];
      Prefix(Step(w, events[0]), events[1..], e);
    }
  }

  lemma {:induction false} DeclaredStays(w: World, events: seq<Event>)
    requires Possible(w, events) && w.server.session.chunkSize > 0
    ensures Run(w, events).server.session.declared == w.server.session.declared
    ensures Run(w, events).server.session.chunkSize == w.server.session.chunkSize
    decreases |events|
  {
    if events != [] {
      WorldShape(w, events[0]);
      hide Step, Enabled;
      DeclaredStays(Step(w, events[0]), events[1..]);
    }
  }
}
