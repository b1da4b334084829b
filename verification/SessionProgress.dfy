/**
 No session call hangs: as long as a promise is pending, an answer, a body or a continuation moves some call on, and
 every such step uses up work. Once callers stop, all promises settle within the work that is left.
 */
module SessionProgress {
  import opened Wrappers
  import opened SessionProtocol
  import opened SessionSafety
  import opened SessionDelivery
  import opened SessionFacts

  // ----- the work left in a call -----

  /** Whether the call has no retry ahead. */
  predicate LastTry(c: Call) {
    c.kind == Restore || c.retry.Some?
  }

  /** Bounds the steps of a call, with those of a restore it may start. */
  function Weight(c: Call): nat {
    match c.phase
    case Settled(_) => 0
    case Finishing(_) => 1
    case ReadingBody => 2
    case ReadingError(_) => 2
    case Answered(_) => if LastTry(c) then 3 else 10
    case Fetching => if LastTry(c) then 4 else 11
    case Waiting(_) => if c.sent > 0 then 5 else 12
    case Draining(_, _) => 12
    case Queued => 13
  }

  /** Call `id` got lighter, by more than the weight of a restore that it started. */
  predicate Sinks(s: Session, s': Session, id: CallId)
    requires id in s.calls
  {
    && id in s'.calls && s.nextId <= s'.nextId <= s.nextId + 1
    && Weight(s'.calls[id]) + 4 * (s'.nextId - s.nextId) < Weight(s.calls[id])
  }

  lemma AnswerSinks(s: Session, id: CallId, reply: Reply)
    requires id in s.calls && s.calls[id].phase.Fetching? && s.nextId !in s.calls
    ensures Sinks(s, AnswerStep(s, id, reply), id)
  {
  }

  lemma SwitchReadSinks(s: Session, id: CallId, content: Content)
    requires id in s.calls && (s.calls[id].phase.ReadingBody? || s.calls[id].phase.ReadingError?)
    ensures Sinks(s, SwitchRead(s, id, content), id)
  {
  }

  lemma ReadSinks(s: Session, id: CallId, content: Content)
    requires id in s.calls && (s.calls[id].phase.ReadingBody? || s.calls[id].phase.ReadingError?)
    ensures Sinks(s, ReadStep(s, id, content), id)
  {
    hide SwitchRead;
    SwitchReadSinks(s, id, if s.calls[id].phase.ReadingError? && content.Valid? then Invalid else content);
  }

  lemma RequestAnswerSinks(s: Session, id: CallId, status: nat)
    requires id in s.calls && s.nextId !in s.calls && s.calls[id].kind.Request? && s.calls[id].phase == Answered(status)
    requires SendsOk(s.calls[id])
    ensures Sinks(s, RequestAnswered(s, id, status), id)
  {
  }

  lemma SwitchAnswerSinks(s: Session, id: CallId, status: nat)
    requires id in s.calls && s.nextId !in s.calls && s.calls[id].kind == Switch
    requires s.calls[id].phase == Answered(status)
    requires SendsOk(s.calls[id])
    ensures Sinks(s, SwitchAnswered(s, id, status), id)
  {
    if s.calls[id].retry.Some? || status != 401 || s.token.None? {
      hide SwitchRetry, SingleFlight;
    } else {
      hide SwitchParse;
    }
  }

  lemma AnsweredSinks(s: Session, id: CallId, status: nat)
    requires id in s.calls && s.nextId !in s.calls && s.calls[id].phase == Answered(status) && SendsOk(s.calls[id])
    ensures Sinks(s, AnsweredStep(s, id, status), id)
  {
    hide RequestAnswered, SwitchAnswered;
    match s.calls[id].kind
    case Request(_) => RequestAnswerSinks(s, id, status);
    case Switch => SwitchAnswerSinks(s, id, status);
    case _ =>
  }

  lemma WaitingSinks(s: Session, id: CallId, ending: Ending)
    requires id in s.calls && s.calls[id].phase.Waiting? && SendsOk(s.calls[id])
    ensures s.calls[id].kind == Switch ==> Sinks(s, SwitchResumed(s, id, ending), id)
    ensures s.calls[id].kind.Request? ==> Sinks(s, RequestResumed(s, id, ending), id)
  {
  }

  lemma BeginningSinks(s: Session, id: CallId)
    requires id in s.calls && (s.calls[id].phase.Queued? || s.calls[id].phase.Draining?) && SendsOk(s.calls[id])
    ensures s.calls[id].phase.Queued? ==> Sinks(s, SwitchRun(s, id), id)
    ensures s.calls[id].phase.Draining? ==> Sinks(s, LogoutDrained(s, id), id)
  {
  }

  // ----- who can move -----

  /** Nothing keeps the call from moving on but its answer, its body or the scheduler. */
  predicate Ready(s: Session, id: CallId) {
    && id in s.calls
    && match s.calls[id].phase
       case Settled(_) => false
       case Waiting(flight) => flight in s.calls && s.calls[flight].phase.Settled?
       case Queued => s.queue != [] && s.queue[0] == id
       case Draining(switch, restore) => Over(s, switch) && Over(s, restore)
       case _ => true
  }

  /** The next thing that can happen to a ready call. */
  function Nudge(s: Session, id: CallId): Event
    requires id in s.calls
  {
    match s.calls[id].phase
    case Fetching => Answer(id, NoReply)
    case ReadingBody => Read(id, Invalid)
    case ReadingError(_) => Read(id, Invalid)
    case _ => Resume(id)
  }

  lemma ResumeSinks(s: Session, id: CallId)
    requires id in s.calls && s.nextId !in s.calls && SendsOk(s.calls[id]) && PhaseOk(s.calls[id])
    ensures ResumeStep(s, id) == s || Sinks(s, ResumeStep(s, id), id)
    ensures Ready(s, id) && Nudge(s, id) == Resume(id) ==> Sinks(s, ResumeStep(s, id), id)
  {
    hide AnsweredStep, SwitchResumed, RequestResumed, SwitchRun, LogoutDrained, Over, SendsOk;
    match s.calls[id].phase
    case Answered(status) => AnsweredSinks(s, id, status);
    case Waiting(flight) =>
      if flight in s.calls && s.calls[flight].phase.Settled? { WaitingSinks(s, id, s.calls[flight].phase.ending); }
    case Queued => BeginningSinks(s, id);
    case Draining(_, _) => BeginningSinks(s, id);
    case _ =>
  }

  lemma StepSinks(s: Session, e: Event, id: CallId)
    requires Acting(e) == Some(id) && Inv(s)
    ensures Step(s, e) == Tick(s) || (id in s.calls && Sinks(Tick(s), Step(s, e), id))
    ensures Ready(s, id) && e == Nudge(s, id) ==> id in s.calls && Sinks(Tick(s), Step(s, e), id)
  {
    FreshId(s);
    if id in s.calls {
      assert CallOk(s, id, s.calls[id]);
      hide Inv, Sinks, SendsOk, PhaseOk;
      match e
      case Answer(_, reply) =>
        if s.calls[id].phase.Fetching? { AnswerSinks(Tick(s), id, reply); hide AnswerStep; }
      case Read(_, content) =>
        if s.calls[id].phase.ReadingBody? || s.calls[id].phase.ReadingError? {
          ReadSinks(Tick(s), id, content);
          hide ReadStep;
        }
      case Resume(_) =>
        ResumeSinks(Tick(s), id);
        hide ResumeStep;
    }
  }

  /** A live restore is ready. */
  lemma RestoreIsReady(s: Session, id: CallId)
    requires Inv(s) && IsLive(s, id, Restore)
    ensures Ready(s, id)
  {
    assert CallOk(s, id, s.calls[id]);
  }

  /** Whom a switch waits for, in the end: the first in the queue, or the restore that one waits for. */
  lemma SwitchIsServed(s: Session, id: CallId) returns (ready: CallId)
    requires Inv(s) && Waits(s) && IsLive(s, id, Switch)
    ensures Ready(s, ready)
  {
    assert CallOk(s, id, s.calls[id]);
    var head := s.queue[0];
    assert IsLive(s, head, Switch) && CallOk(s, head, s.calls[head]) && WaitOk(s, s.calls[head]);
    ready := head;
    if s.calls[head].phase.Waiting? && !Ready(s, head) {
      ready := s.calls[head].phase.flight;
      RestoreIsReady(s, ready);
    }
  }

  /** Whenever a promise is pending, some call is ready. */
  lemma SomeCallIsReady(s: Session, id: CallId) returns (ready: CallId)
    requires Inv(s) && Waits(s) && id in s.calls && Live(s.calls[id])
    ensures Ready(s, ready)
  {
    assert CallOk(s, id, s.calls[id]) && WaitOk(s, s.calls[id]);
    hide Inv, Waits;
    ready := id;
    if !Ready(s, id) {
      match s.calls[id].phase
      case Waiting(flight) =>
        ready := flight;
        RestoreIsReady(s, flight);
      case Queued => ready := SwitchIsServed(s, id);
      case Draining(switch, restore) =>
        if !Over(s, restore) {
          ready := restore.value;
          RestoreIsReady(s, restore.value);
        } else {
          ready := SwitchIsServed(s, switch.value);
        }
    }
  }

  // ----- the work left in a session -----

  function Work(calls: map<CallId, Call>, n: nat): nat {
    if n == 0 then 0 else Work(calls, n - 1) + if n - 1 in calls then Weight(calls[n - 1]) else 0
  }

  function WorkLeft(s: Session): nat {
    Work(s.calls, s.nextId)
  }

  lemma {:induction false} WorkOfEdit(calls: map<CallId, Call>, id: CallId, c: Call, n: nat)
    ensures Work(calls[id := c], n) ==
      Work(calls, n) + if id < n then Weight(c) - (if id in calls then Weight(calls[id]) else 0) else 0
  {
    hide Weight;
    if n == 0 {
    } else {
      WorkOfEdit(calls, id, c, n - 1);
    }
  }

  lemma SinkingWorks(s: Session, s': Session, id: CallId)
    requires id in s.calls && Sinks(s, s', id) && Framed(s, s', id) && id < s.nextId && s.nextId !in s.calls
    ensures WorkLeft(s') < WorkLeft(s)
  {
    var n := s.nextId;
    if t: Session :| BeginsRestore(s, t) && Acts(t, s', id) {
      assert Weight(t.calls[n]) == 4;
      WorkOfEdit(s.calls, n, t.calls[n], n);
      WorkOfEdit(t.calls, id, s'.calls[id], n + 1);
    } else {
      WorkOfEdit(s.calls, id, s'.calls[id], n);
    }
  }

  /** An answer, a body or a continuation changes nothing about the calls, or uses up work. */
  lemma StepWorks(events: seq<Event>, e: Event)
    requires Acting(e).Some?
    ensures var s, s' := After(events), Step(After(events), e);
      (s'.calls == s.calls && WorkLeft(s') == WorkLeft(s)) || WorkLeft(s') < WorkLeft(s)
    ensures var s, id := After(events), Acting(e).value;
      Ready(s, id) && e == Nudge(s, id) ==> WorkLeft(Step(s, e)) < WorkLeft(s)
  {
    var s, id := After(events), Acting(e).value;
    EveryRunKeeps(events);
    StepFrames(events, e);
    StepSinks(s, e, id);
    if id in s.calls { assert CallOk(s, id, s.calls[id]); }
    hide Inv, Framed, Sinks, Ready, Nudge, Step, After, Work;
    if Step(s, e) != Tick(s) || (Ready(s, id) && e == Nudge(s, id)) { SinkingWorks(Tick(s), Step(s, e), id); }
  }

  // ----- runs in which nobody calls -----

  ghost predicate AllSettled(s: Session) {
    forall id <- s.calls :: !Live(s.calls[id])
  }

  ghost predicate OnlyActing(events: seq<Event>) {
    forall e <- events :: Acting(e).Some?
  }

  /** Exactly: nothing can move any call only if every promise has settled. */
  lemma NothingMovesIffAllSettled(events: seq<Event>)
    ensures var s := After(events);
      AllSettled(s) <==> forall e | Acting(e).Some? :: Step(s, e).calls == s.calls
  {
    var s := After(events);
    EveryRunKeeps(events);
    EveryRunWaits(events);
    hide After, Inv, Waits;
    if id :| id in s.calls && Live(s.calls[id]) {
      var ready := SomeCallIsReady(s, id);
      var e := Nudge(s, ready);
      StepSinks(s, e, ready);
      assert Step(s, e).calls[ready] != s.calls[ready];
      assert Acting(e).Some?;
    } else {
      forall e | Acting(e).Some? ensures Step(s, e).calls == s.calls {
        StepSinks(s, e, Acting(e).value);
      }
    }
  }

  /** How many of the further events change the table of calls. */
  function Moves(events: seq<Event>, more: seq<Event>): nat {
    if more == [] then 0
    else
      var init := more[..|more| - 1];
      Moves(events, init) + if After(events + more).calls != After(events + init).calls then 1 else 0
  }

  /** However the scheduler goes on, it makes no more moves than there is work left. */
  lemma {:induction false} MovesAreBounded(events: seq<Event>, more: seq<Event>)
    requires OnlyActing(more)
    ensures Moves(events, more) + WorkLeft(After(events + more)) <= WorkLeft(After(events))
    decreases |more|
  {
    hide After, Step, Work;
    if more == [] {
      assert events + more == events;
    } else {
      var init, e := more[..|more| - 1], more[|more| - 1];
      MovesAreBounded(events, init);
      assert events + more == events + init + [e];
      StepWorks(events + init, e);
      AfterOneMore(events + init, e);
    }
  }

  lemma AfterOneMore(events: seq<Event>, e: Event)
    ensures After(events + [e]) == Step(After(events), e)
  {
    assert (events + [e])[..|events|] == events;
  }

  /** From every reachable state, answers and continuations alone can settle all promises. */
  lemma {:induction false} CallsCanSettle(events: seq<Event>) returns (more: seq<Event>)
    ensures OnlyActing(more) && AllSettled(After(events + more))
    decreases WorkLeft(After(events))
  {
    var s := After(events);
    EveryRunKeeps(events);
    EveryRunWaits(events);
    hide After, Inv, Waits, Step, Work, Ready, Nudge;
    if id :| id in s.calls && Live(s.calls[id]) {
      var ready := SomeCallIsReady(s, id);
      NudgeActs(s, ready);
      var e := Nudge(s, ready);
      StepWorks(events, e);
      AfterOneMore(events, e);
      var rest := CallsCanSettle(events + [e]);
      more := [e] + rest;
      assert events + more == events + [e] + rest;
    } else {
      more := [];
      assert events + more == events;
    }
  }

  lemma NudgeActs(s: Session, id: CallId)
    requires Ready(s, id)
    ensures id in s.calls && Acting(Nudge(s, id)) == Some(id)
  {
  }
}
