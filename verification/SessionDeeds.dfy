/**
 What every event does to the calls of a session: which paths are sent, again or for the first time, which promises
 settle and how, and which calls begin. The tables below look at the event and the fields of the call only.
 */
module SessionDeeds {
  import opened Wrappers
  import opened SessionProtocol
  import opened SessionSafety
  import opened SessionDelivery
  import opened SessionFacts

  // ----- what an event does to its call -----

  /** Nothing; its path is sent; or it comes into another phase. */
  datatype Deed = Rests | Sends | Turns(phase: Phase)

  /** A restore is followed by its `finally`; the promise of any other call settles at once. */
  function Ends(c: Call, ending: Ending): Deed {
    Turns(if c.kind == Restore then Finishing(ending) else Settled(ending))
  }

  /** The call is bound to its generation, and that is over. */
  predicate Outdated(s: Session, c: Call) {
    c.kind != Select && c.kind != Logout && c.generation != s.generation
  }

  predicate OutdatedRequest(s: Session, c: Call) {
    c.kind.Request? && c.generation != s.generation
  }

  /** How a call ends once a body has been read. */
  function EndingOfBody(s: Session, c: Call, content: Content): Ending {
    if Outdated(s, c) then Stale
    else if !c.phase.ReadingBody? || !content.Valid? then Failed
    else if c.kind == Restore && c.version != s.version then Stale
    else Fine
  }

  /** The answer calls for a newer token before the first retry, and there is a token to renew. */
  predicate Renews(s: Session, c: Call, status: nat) {
    status == 401 && c.retry.None? && s.token.Some? && (c.kind == Switch || (c.kind.Request? && c.kind.retriable))
  }

  /** The restore in flight is for this call, or there is none and one may begin. */
  predicate FlightServes(s: Session, c: Call) {
    s.flight.Some? ==> s.flight.value.version == c.version && s.flight.value.generation == c.generation
  }

  function AnsweredDeed(s: Session, c: Call, status: nat): Deed {
    if Renews(s, c, status) && c.version != s.version then if OutdatedRequest(s, c) then Ends(c, Stale) else Sends
    else if Renews(s, c, status) then
      if !FlightServes(s, c) then Ends(c, Stale)
      else Turns(Waiting(if s.flight.Some? then s.flight.value.call else s.nextId))
    else if Outdated(s, c) then Ends(c, Stale)
    else if !Ok(status) then Turns(ReadingError(status))
    else if status == 204 then Ends(c, if c.kind.Request? || c.kind == Logout then Fine else Failed)
    else Turns(ReadingBody)
  }

  /** The restore a call has waited for has ended so. */
  function ReleasedDeed(s: Session, c: Call, ending: Ending): Deed {
    if c.kind == Switch && c.sent == 0 then if ending == Failed then Ends(c, Failed) else Sends
    else if OutdatedRequest(s, c) then Ends(c, Stale)
    else if ending == Fine then Sends
    else Ends(c, ending)
  }

  function ResumedDeed(s: Session, id: CallId): Deed
    requires id in s.calls
  {
    var c := s.calls[id];
    match c.phase
    case Queued =>
      if s.queue == [] || s.queue[0] != id then Rests
      else if s.token.None? then Ends(c, Failed)
      else if s.flight.Some? then Turns(Waiting(s.flight.value.call))
      else Sends
    case Waiting(flight) =>
      if flight in s.calls && s.calls[flight].phase.Settled? then ReleasedDeed(s, c, s.calls[flight].phase.ending)
      else Rests
    case Draining(switch, restore) => if Over(s, switch) && Over(s, restore) then Sends else Rests
    case Answered(status) => AnsweredDeed(s, c, status)
    case Finishing(ending) => Turns(Settled(ending))
    case _ => Rests
  }

  /** What event `e` does to the call it is for. */
  function DeedOf(s: Session, e: Event, id: CallId): Deed
    requires id in s.calls
  {
    var c := s.calls[id];
    match e
    case Answer(_, reply) =>
      if !c.phase.Fetching? then Rests
      else if OutdatedRequest(s, c) then Ends(c, Stale)
      else if reply == NoReply then Ends(c, Failed)
      else Turns(Answered(reply.code))
    case Read(_, content) =>
      if c.phase.ReadingBody? || c.phase.ReadingError? then Ends(c, EndingOfBody(s, c, content)) else Rests
    case Resume(_) => ResumedDeed(s, id)
    case _ => Rests
  }

  /** A path that is sent: for the first time, or again, and then the token held now is on record for the retry. */
  predicate SentAs(s: Session, c: Call, c': Call) {
    && c'.phase == Fetching && c'.sent == c.sent + 1
    && (c.kind == Switch && c.sent == 0 ==> c'.version == s.version && c'.retry == c.retry && c'.retried == c.retried)
    && (c.sent > 0 ==> c'.retry == Some(s.version) && c'.version == c.version)
    && (c.kind == Switch && c.sent > 0 ==> (c'.retried <==> c.version != s.version))
  }

  /** A switch whose turn has come belongs to the generation it begins. */
  predicate GenerationAs(s: Session, c: Call, c': Call) {
    c'.generation == if c.phase.Queued? && !c'.phase.Queued? && s.token.Some? then s.generation + 1 else c.generation
  }

  predicate Does(s: Session, c: Call, c': Call, deed: Deed) {
    && c'.kind == c.kind && GenerationAs(s, c, c')
    && match deed
       case Rests => c' == c
       case Sends => SentAs(s, c, c')
       case Turns(phase) =>
         && c'.phase == phase && c'.sent == c.sent
         && (phase.Settled? || (c'.retry == c.retry && c'.version == c.version && c'.retried == c.retried))
  }

  // ----- which calls begin -----

  /** A new call, by what its caller sees of it. */
  datatype Beginning = Beginning(kind: Kind, phase: Phase, sent: nat, generation: nat)

  /** Whether the event starts a restore for the sake of its call. */
  predicate StartsRestore(s: Session, e: Event) {
    && e.Resume? && e.id in s.calls
    && var c := s.calls[e.id];
       c.phase.Answered? && Renews(s, c, c.phase.status) && c.version == s.version && s.flight.None?
  }

  function Begun(s: Session, e: Event): Option<Beginning> {
    match e
    case CallRequest(retriable) => Some(Beginning(Request(retriable), Fetching, 1, s.generation))
    case CallSelect => Some(Beginning(Select, Fetching, 1, s.generation))
    case CallSwitch => if s.logouts > 0 then None else Some(Beginning(Switch, Queued, 0, s.generation))
    case CallRestore =>
      if s.logouts > 0 || s.flight.Some? then None else Some(Beginning(Restore, Fetching, 1, s.generation))
    case CallLogout =>
      var last := if s.queue == [] then None else Some(s.queue[|s.queue| - 1]);
      var restore := if s.flight.Some? then Some(s.flight.value.call) else None;
      Some(Beginning(Logout, Draining(last, restore), 0, s.generation + 1))
    case Resume(id) =>
      if StartsRestore(s, e) then Some(Beginning(Restore, Fetching, 1, s.calls[id].generation)) else None
    case _ => None
  }

  /** The table of calls grows by the call that begins, if one does. */
  predicate GrowsBy(s: Session, s': Session, begun: Option<Beginning>) {
    match begun
    case None => s'.calls.Keys == s.calls.Keys
    case Some(b) =>
      && s'.calls.Keys == s.calls.Keys + {s.nextId}
      && var c := s'.calls[s.nextId];
         c.kind == b.kind && c.phase == b.phase && c.sent == b.sent && c.generation == b.generation && c.retry == None
         && (c.kind != Logout ==> c.version == s.version)
  }

  // ----- what becomes of the queue, the flight and the count of logouts -----

  /** The call of the event has just settled. */
  predicate SettlesNow(s: Session, e: Event, kind: Kind) {
    Acting(e).Some? && Acting(e).value in s.calls && s.calls[Acting(e).value].kind == kind
    && DeedOf(s, e, Acting(e).value).Turns? && DeedOf(s, e, Acting(e).value).phase.Settled?
  }

  predicate SharedAs(s: Session, s': Session, e: Event) {
    && s'.queue == (if Begun(s, e).Some? && Begun(s, e).value.kind == Switch then s.queue + [s.nextId]
                    else if SettlesNow(s, e, Switch) && s.queue != [] then s.queue[1..] else s.queue)
    && s'.flight == (if Begun(s, e).Some? && Begun(s, e).value.kind == Restore
                     then Some(Flight(s.nextId, s.version, Begun(s, e).value.generation))
                     else if SettlesNow(s, e, Restore) then None else s.flight)
    && s'.logouts == (if e == CallLogout then s.logouts + 1
                      else if SettlesNow(s, e, Logout) && s.logouts > 0 then s.logouts - 1 else s.logouts)
  }

  // ----- step by step -----

  /** All that a step of call `id` does. */
  predicate Done(s: Session, s': Session, e: Event, id: CallId) {
    && id in s.calls && GrowsBy(s, s', Begun(s, e)) && SharedAs(s, s', e)
    && Does(s, s.calls[id], s'.calls[id], DeedOf(s, e, id))
  }

  /** What the tables rely on. */
  ghost predicate Orderly(s: Session, id: CallId) {
    && id in s.calls && SendsOk(s.calls[id]) && PhaseOk(s.calls[id]) && s.nextId !in s.calls
    && (s.calls[id].kind == Restore && Live(s.calls[id]) ==> s.flight.Some? && s.flight.value.call == id)
    && (s.calls[id].kind == Switch && Live(s.calls[id]) && !s.calls[id].phase.Queued? ==>
          s.queue != [] && s.queue[0] == id)
  }

  lemma UnansweredIsDone(s: Session, id: CallId)
    requires Orderly(s, id) && s.calls[id].phase.Fetching? && !s.calls[id].kind.Request?
    ensures Done(s, Unanswered(s, id), Answer(id, NoReply), id)
  {
    hide SendsOk, PhaseOk, SentAs;
  }

  lemma AnswerIsHeard(s: Session, id: CallId, reply: Reply)
    requires Orderly(s, id) && (s.calls[id].kind.Request? || reply.Status? || !s.calls[id].phase.Fetching?)
    ensures Done(s, AnswerStep(s, id, reply), Answer(id, reply), id)
  {
    hide SendsOk, PhaseOk, SentAs, Unanswered;
  }

  lemma AnswerIsDone(s: Session, id: CallId, reply: Reply)
    requires Orderly(s, id)
    ensures Done(s, AnswerStep(s, id, reply), Answer(id, reply), id)
  {
    hide SendsOk, PhaseOk, Done, Unanswered;
    if s.calls[id].kind.Request? || reply.Status? || !s.calls[id].phase.Fetching? {
      hide AnswerStep;
      AnswerIsHeard(s, id, reply);
    } else {
      UnansweredIsDone(s, id);
    }
  }

  /** The table after the step: only call `id` has changed, and a switch that settles has left the queue. */
  predicate OnlyCall(s: Session, s': Session, id: CallId, c': Call) {
    && id in s.calls && s'.calls == s.calls[id := c'] && s'.flight == s.flight && s'.logouts == s.logouts
    && s'.queue == if s.calls[id].kind == Switch && c'.phase.Settled? && s.queue != [] then s.queue[1..] else s.queue
  }

  lemma OnlyCallIsDone(s: Session, s': Session, e: Event, id: CallId, c': Call)
    requires Orderly(s, id) && s.calls[id].kind != Restore && s.calls[id].kind != Logout && Live(s.calls[id])
    requires Acting(e) == Some(id) && Begun(s, e) == None && OnlyCall(s, s', id, c')
    requires s.calls[id].kind == Switch ==> s.queue != []
    requires Does(s, s.calls[id], c', DeedOf(s, e, id))
    ensures Done(s, s', e, id)
  {
    hide SendsOk, PhaseOk, GenerationAs;
  }

  lemma SwitchReadIs(s: Session, id: CallId, content: Content)
    requires Orderly(s, id) && s.calls[id].kind == Switch
    requires s.calls[id].phase.ReadingBody? || s.calls[id].phase.ReadingError?
    ensures OnlyCall(s, ReadStep(s, id, content), id,
                     s.calls[id].(phase := Settled(EndingOfBody(s, s.calls[id], content))))
  {
    hide SendsOk, PhaseOk;
  }

  lemma OtherReadIsDone(s: Session, id: CallId, content: Content)
    requires Orderly(s, id) && s.calls[id].kind != Switch
    ensures Done(s, ReadStep(s, id, content), Read(id, content), id)
  {
    hide SendsOk, PhaseOk, SwitchRead;
  }

  lemma ReadIsDone(s: Session, id: CallId, content: Content)
    requires Orderly(s, id)
    ensures Done(s, ReadStep(s, id, content), Read(id, content), id)
  {
    if s.calls[id].kind != Switch {
      hide *;
      OtherReadIsDone(s, id, content);
    } else if s.calls[id].phase.ReadingBody? || s.calls[id].phase.ReadingError? {
      SwitchReadIs(s, id, content);
      hide ReadStep, OnlyCall, SendsOk, PhaseOk, EndingOfBody, Done;
      OnlyCallIsDone(s, ReadStep(s, id, content), Read(id, content), id,
                     s.calls[id].(phase := Settled(EndingOfBody(s, s.calls[id], content))));
    }
  }

  lemma QueuedIsDone(s: Session, id: CallId)
    requires Orderly(s, id) && s.calls[id].phase.Queued?
    ensures Done(s, ResumeStep(s, id), Resume(id), id)
  {
    hide AnsweredStep, RestoreFinally, LogoutDrained, RequestResumed, SwitchResumed;
  }

  lemma BeginningIsDone(s: Session, id: CallId)
    requires Orderly(s, id)
    requires (s.calls[id].phase.Finishing? || s.calls[id].phase.Queued? || s.calls[id].phase.Draining?)
    ensures Done(s, ResumeStep(s, id), Resume(id), id)
  {
    if s.calls[id].phase.Queued? {
      hide *;
      QueuedIsDone(s, id);
    } else {
      hide AnsweredStep, SwitchRun, RequestResumed, SwitchResumed;
    }
  }

  lemma RequestResumeIs(s: Session, id: CallId, ending: Ending)
    requires id in s.calls && s.calls[id].kind.Request? && s.calls[id].phase.Waiting? && SendsOk(s.calls[id])
    ensures var s' := RequestResumed(s, id, ending);
      && id in s'.calls && OnlyCall(s, s', id, s'.calls[id])
      && Does(s, s.calls[id], s'.calls[id], ReleasedDeed(s, s.calls[id], ending))
  {
  }

  lemma SwitchResumeIs(s: Session, id: CallId, ending: Ending)
    requires id in s.calls && s.calls[id].kind == Switch && s.calls[id].phase.Waiting? && SendsOk(s.calls[id])
    requires s.queue != [] && s.queue[0] == id
    ensures var s' := SwitchResumed(s, id, ending);
      && id in s'.calls && OnlyCall(s, s', id, s'.calls[id])
      && Does(s, s.calls[id], s'.calls[id], ReleasedDeed(s, s.calls[id], ending))
  {
  }

  lemma WaitingIsDone(s: Session, id: CallId)
    requires Orderly(s, id) && s.calls[id].phase.Waiting?
    ensures Done(s, ResumeStep(s, id), Resume(id), id)
  {
    var flight := s.calls[id].phase.flight;
    if flight in s.calls && s.calls[flight].phase.Settled? {
      var ending := s.calls[flight].phase.ending;
      if s.calls[id].kind == Switch { SwitchResumeIs(s, id, ending); } else { RequestResumeIs(s, id, ending); }
      hide SwitchResumed, RequestResumed, OnlyCall, SendsOk, Does, ReleasedDeed, Done;
      OnlyCallIsDone(s, ResumeStep(s, id), Resume(id), id, ResumeStep(s, id).calls[id]);
    } else {
      hide SendsOk, PhaseOk;
    }
  }

  lemma RequestParseIs(s: Session, t: Session, id: CallId, status: nat)
    requires id in s.calls && s.calls[id].kind.Request? && s.calls[id].phase == Answered(status)
    requires t == s || t == Expire(s)
    requires !Renews(s, s.calls[id], status)
    ensures var s' := RequestParse(t, id, status);
      && id in s'.calls && OnlyCall(s, s', id, s'.calls[id])
      && Does(s, s.calls[id], s'.calls[id], AnsweredDeed(s, s.calls[id], status))
  {
  }

  lemma RequestRenewalIs(s: Session, id: CallId, status: nat)
    requires Orderly(s, id) && s.calls[id].kind.Request? && s.calls[id].phase == Answered(status)
    requires Renews(s, s.calls[id], status)
    ensures Done(s, RequestAnswered(s, id, status), Resume(id), id)
  {
    hide RequestParse, PhaseOk;
  }

  lemma RequestAnswerIsDone(s: Session, id: CallId)
    requires Orderly(s, id) && s.calls[id].phase.Answered? && s.calls[id].kind.Request?
    ensures Done(s, ResumeStep(s, id), Resume(id), id)
  {
    var status := s.calls[id].phase.status;
    if Renews(s, s.calls[id], status) {
      RequestRenewalIs(s, id, status);
      hide RequestAnswered, SendsOk, Does, Done;
    } else {
      RequestParseIs(s, s, id, status);
      RequestParseIs(s, Expire(s), id, status);
      hide RequestParse, OnlyCall, SendsOk, Does, Expire, Done;
      OnlyCallIsDone(s, ResumeStep(s, id), Resume(id), id, ResumeStep(s, id).calls[id]);
    }
  }

  lemma SwitchParseIs(s: Session, t: Session, id: CallId, status: nat)
    requires id in s.calls && s.calls[id].kind == Switch && s.calls[id].phase == Answered(status)
    requires t == s || t == Expire(s)
    requires s.queue != [] && s.queue[0] == id && !Renews(s, s.calls[id], status)
    ensures var s' := SwitchParse(t, id, status);
      && id in s'.calls && OnlyCall(s, s', id, s'.calls[id])
      && Does(s, s.calls[id], s'.calls[id], AnsweredDeed(s, s.calls[id], status))
  {
    hide Land, Expire, SentAs;
    SharedEdits(s, id, 0);
    SharedEdits(t, id, 0);
    ExpiryStays(s);
    ExpiryStays(t);
  }

  lemma ExpiryStays(s: Session)
    ensures Expire(s).flight == s.flight && Expire(s).logouts == s.logouts && Expire(s).generation == s.generation
    ensures Expire(s).calls == s.calls && Expire(s).queue == s.queue
  {
  }

  lemma SwitchRenewalIs(s: Session, id: CallId, status: nat)
    requires Orderly(s, id) && s.calls[id].kind == Switch && s.calls[id].phase == Answered(status)
    requires Renews(s, s.calls[id], status)
    ensures Done(s, SwitchAnswered(s, id, status), Resume(id), id)
  {
    hide SwitchParse;
  }

  lemma SwitchAnswerIsDone(s: Session, id: CallId)
    requires Orderly(s, id) && s.calls[id].phase.Answered? && s.calls[id].kind == Switch
    ensures Done(s, ResumeStep(s, id), Resume(id), id)
  {
    var status := s.calls[id].phase.status;
    if Renews(s, s.calls[id], status) {
      SwitchRenewalIs(s, id, status);
      hide SwitchAnswered, SendsOk, Does, Done;
    } else {
      SwitchParseIs(s, s, id, status);
      SwitchParseIs(s, Expire(s), id, status);
      hide SwitchParse, OnlyCall, SendsOk, Does, Expire, Done;
      OnlyCallIsDone(s, ResumeStep(s, id), Resume(id), id, ResumeStep(s, id).calls[id]);
    }
  }

  lemma LogoutAnswerIsDone(s: Session, id: CallId)
    requires Orderly(s, id) && s.calls[id].phase.Answered? && s.calls[id].kind == Logout
    ensures Done(s, ResumeStep(s, id), Resume(id), id)
  {
    hide SendsOk, PhaseOk, SentAs, RestoreAnswered, RequestAnswered, SwitchAnswered, SelectAnswered;
  }

  lemma RestoreAnswerIsDone(s: Session, id: CallId)
    requires Orderly(s, id) && s.calls[id].phase.Answered? && s.calls[id].kind == Restore
    ensures Done(s, ResumeStep(s, id), Resume(id), id)
  {
    hide SendsOk, PhaseOk, SentAs, RequestAnswered, SwitchAnswered, SelectAnswered, LogoutFinish;
  }

  lemma SelectAnswerIsDone(s: Session, id: CallId)
    requires Orderly(s, id) && s.calls[id].phase.Answered? && s.calls[id].kind == Select
    ensures Done(s, ResumeStep(s, id), Resume(id), id)
  {
    hide SendsOk, PhaseOk, SentAs, RequestAnswered, SwitchAnswered, RestoreAnswered, LogoutFinish;
  }

  lemma OtherAnswerIsDone(s: Session, id: CallId)
    requires Orderly(s, id) && s.calls[id].phase.Answered? && !s.calls[id].kind.Request? && s.calls[id].kind != Switch
    ensures Done(s, ResumeStep(s, id), Resume(id), id)
  {
    var kind := s.calls[id].kind;
    hide *;
    match kind
    case Restore => RestoreAnswerIsDone(s, id);
    case Select => SelectAnswerIsDone(s, id);
    case Logout => LogoutAnswerIsDone(s, id);
  }

  lemma ResumeIsDone(s: Session, id: CallId)
    requires Orderly(s, id)
    ensures Done(s, ResumeStep(s, id), Resume(id), id)
  {
    var c := s.calls[id];
    match c.phase
    case Answered(_) =>
      hide *;
      if c.kind.Request? {
        RequestAnswerIsDone(s, id);
      } else if c.kind == Switch {
        SwitchAnswerIsDone(s, id);
      } else {
        OtherAnswerIsDone(s, id);
      }
    case Waiting(_) =>
      hide *;
      WaitingIsDone(s, id);
    case Queued => BeginningIsDone(s, id);
    case Draining(_, _) => BeginningIsDone(s, id);
    case Finishing(_) => BeginningIsDone(s, id);
    case _ => hide SendsOk, PhaseOk;
  }

  /** Events without a call of their own. */
  lemma CallIsDone(s: Session, e: Event)
    requires Acting(e).None? && s.nextId !in s.calls
    ensures var s' := CallStep(s, e);
      && GrowsBy(s, s', Begun(s, e)) && SharedAs(s, s', e)
      && forall x <- s.calls :: x in s'.calls && s'.calls[x] == s.calls[x]
  {
  }

  lemma AbsentIsDone(s: Session, e: Event)
    requires Acting(e).Some? && Acting(e).value !in s.calls
    ensures Step(s, e) == Tick(s) && Begun(s, e) == None && SharedAs(s, Tick(s), e) && GrowsBy(s, Tick(s), None)
  {
  }

  lemma TickChangesNoTable(s: Session, e: Event)
    ensures Begun(Tick(s), e) == Begun(s, e)
    ensures forall s' :: SharedAs(Tick(s), s', e) == SharedAs(s, s', e)
    ensures forall s' :: GrowsBy(Tick(s), s', Begun(s, e)) == GrowsBy(s, s', Begun(s, e))
    ensures Acting(e).Some? && Acting(e).value in s.calls ==>
      DeedOf(Tick(s), e, Acting(e).value) == DeedOf(s, e, Acting(e).value)
    ensures forall c, c', deed :: Does(Tick(s), c, c', deed) == Does(s, c, c', deed)
  {
  }

  lemma StepIsDone(s: Session, e: Event, id: CallId)
    requires Acting(e) == Some(id) && Orderly(Tick(s), id)
    ensures Done(Tick(s), Step(s, e), e, id)
  {
    hide Orderly, Done, AnswerStep, ReadStep, ResumeStep;
    match e
    case Answer(_, reply) => AnswerIsDone(Tick(s), id, reply);
    case Read(_, content) => ReadIsDone(Tick(s), id, content);
    case Resume(_) => ResumeIsDone(Tick(s), id);
  }

  lemma IsOrderly(s: Session, id: CallId)
    requires Inv(s) && id in s.calls
    ensures Orderly(Tick(s), id)
  {
    FreshId(s);
    assert CallOk(s, id, s.calls[id]);
    hide SendsOk, PhaseOk, TimeOk;
  }

  /** Only the call of the event and a new one are touched. */
  lemma OthersStay(s: Session, s': Session, id: CallId)
    requires Framed(s, s', id) && s.nextId !in s.calls
    ensures forall x <- s.calls | x != id :: x in s'.calls && s'.calls[x] == s.calls[x]
  {
  }

  /**
   In every run, an event does to its call what the tables say, lets the call begin that they say, and moves queue,
   flight and logouts accordingly; no other call changes.
   */
  lemma EveryDeedIsDone(events: seq<Event>, e: Event)
    ensures var s, s' := After(events), Step(After(events), e);
      && GrowsBy(s, s', Begun(s, e)) && SharedAs(s, s', e)
      && forall x <- s.calls ::
           x in s'.calls && if Acting(e) == Some(x) then Does(s, s.calls[x], s'.calls[x], DeedOf(s, e, x))
             else s'.calls[x] == s.calls[x]
  {
    var s := After(events);
    EveryRunKeeps(events);
    StepFrames(events, e);
    TickChangesNoTable(s, e);
    FreshId(s);
    var t, s' := Tick(s), Step(s, e);
    hide Inv, Framed, GrowsBy, SharedAs, Does, DeedOf, Begun, After, Step;
    if Acting(e).None? {
      NewCallIsDone(s, e);
    } else if Acting(e).value !in s.calls {
      AbsentIsDone(s, e);
    } else {
      var id := Acting(e).value;
      OthersStay(t, s', id);
      IsOrderly(s, id);
      hide Orderly;
      StepIsDone(s, e, id);
    }
  }

  lemma NewCallIsDone(s: Session, e: Event)
    requires Acting(e).None? && s.nextId !in s.calls
    ensures var t, s' := Tick(s), Step(s, e);
      && GrowsBy(t, s', Begun(t, e)) && SharedAs(t, s', e) && forall x <- s.calls ::
           x in s'.calls && s'.calls[x] == s.calls[x]
  {
    hide GrowsBy, SharedAs, Begun, CallStep;
    CallIsDone(Tick(s), e);
  }

  /** The deed of a request is that its path is sent. */
  lemma RequestSendsIff(s: Session, e: Event, id: CallId)
    requires id in s.calls && s.calls[id].kind.Request? && PhaseOk(s.calls[id]) && Acting(e) == Some(id)
    ensures var c := s.calls[id];
      DeedOf(s, e, id).Sends? <==> e == Resume(id) && c.generation == s.generation && MayGoAgain(s, c)
  {
  }

  /** The restore it waited for has brought a token, or a newer token was there when its answer refused the old one. */
  predicate MayGoAgain(s: Session, c: Call) {
    || (c.phase.Waiting? && c.phase.flight in s.calls && s.calls[c.phase.flight].phase == Settled(Fine))
    || (c.phase == Answered(401) && c.kind.Request? && c.kind.retriable && c.retry.None? && s.token.Some?
         && c.version != s.version)
  }

  /** In every run, the path of a request is sent again exactly then, with the token held at that time on record. */
  lemma RequestIsSentAgainIff(events: seq<Event>, e: Event, id: CallId)
    requires id in After(events).calls && After(events).calls[id].kind.Request?
    ensures var s := After(events);
      && id in Step(s, e).calls
      && var c, c' := s.calls[id], Step(s, e).calls[id];
         && (c'.sent == c.sent + 1 <==> e == Resume(id) && c.generation == s.generation && MayGoAgain(s, c))
         && (c'.sent == c.sent || (c'.sent == c.sent + 1 && c'.phase == Fetching))
         && (c'.sent == c.sent + 1 && c.sent > 0 ==> c'.retry == Some(s.version))
  {
    var s := After(events);
    EveryDeedIsDone(events, e);
    if Acting(e) == Some(id) {
      assert PhaseOk(s.calls[id]) by {
        EveryRunKeeps(events);
        assert CallOk(s, id, s.calls[id]);
        hide PhaseOk, SendsOk, TimeOk, After;
      }
      assert Does(s, s.calls[id], Step(s, e).calls[id], DeedOf(s, e, id));
      RequestSendsIff(s, e, id);
      hide Step, After, DeedOf, GrowsBy, SharedAs, MayGoAgain;
    } else {
      assert Step(s, e).calls[id] == s.calls[id];
      hide Step, After, DeedOf, Does, GrowsBy, SharedAs, MayGoAgain;
    }
  }
}
