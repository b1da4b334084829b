/**
 What a landing is: at the very step in which a call returns a body, or a restore or switch publishes its token, the
 generation is still the call's own, and the session records the landing. Only selections publish unbound.
 */
module SessionDelivery {
  import opened Wrappers
  import opened SessionProtocol
  import opened SessionSafety

  /** In the step from `s` to `s'` call `id` returns a body, or publishes a token. */
  predicate Delivers(s: Session, s': Session, id: CallId)
    requires id in s.calls
  {
    id in s'.calls
      && (s'.published != s.published || (s.calls[id].kind.Request? && s'.calls[id].phase == Settled(Fine)))
  }

  /** It delivers in its own generation and on record, or it is a selection; nothing else is ever on record. */
  predicate Bound(s: Session, s': Session, id: CallId)
    requires id in s.calls
  {
    && (Delivers(s, s', id) && s.calls[id].kind != Select ==>
          Current(s, id) && s'.landings == s.landings + [Landing(s.calls[id].started, s.purged)])
    && (s'.landings != s.landings ==> Delivers(s, s', id) && s'.published <= s.published + 1)
    && (s'.published != s.published ==>
         s.calls[id].kind == Restore || s.calls[id].kind == Switch || s.calls[id].kind == Select)
  }

  lemma ReadsAreBound(s: Session, id: CallId, content: Content)
    requires id in s.calls && !s.calls[id].phase.Settled?
    ensures Bound(s, ReadStep(s, id, content), id)
  {
    hide LogoutFinish, SwitchRejected, Expire;
    LogoutIsBound(s, id, Fine);
    LogoutIsBound(s, id, Failed);
    RejectionIsBound(s, id, if s.calls[id].phase.ReadingError? then s.calls[id].phase.status else 0, false, Stale);
    RejectionIsBound(s, id, if s.calls[id].phase.ReadingError? then s.calls[id].phase.status else 0, false, Failed);
    RejectionIsBound(s, id, if s.calls[id].phase.ReadingError? then s.calls[id].phase.status else 0, true, Failed);
    ExpiryDelivers(s);
  }

  lemma ExpiryDelivers(s: Session)
    ensures Expire(s).landings == s.landings && Expire(s).published == s.published && Expire(s).calls == s.calls
    ensures Expire(s).generation == s.generation && Expire(s).purged == s.purged
  {
  }

  lemma LogoutIsBound(s: Session, id: CallId, ending: Ending)
    requires id in s.calls
    ensures s.calls[id].kind == Logout ==> Bound(s, LogoutFinish(s, id, ending), id)
  {
  }

  lemma RejectionIsBound(s: Session, id: CallId, status: nat, preserved: bool, outcome: Ending)
    requires id in s.calls
    ensures s.calls[id].kind == Switch ==> Bound(s, SwitchRejected(s, id, status, preserved, outcome), id)
  {
  }

  lemma RequestAnswerIsBound(s: Session, id: CallId, status: nat)
    requires id in s.calls && s.calls[id].kind.Request? && !s.calls[id].phase.Settled?
    ensures Bound(s, RequestAnswered(s, id, status), id)
  {
    hide Expire;
    ExpiryDelivers(s);
  }

  lemma SwitchAnswerIsBound(s: Session, id: CallId, status: nat)
    requires id in s.calls && s.calls[id].kind == Switch && !s.calls[id].phase.Settled?
    ensures Bound(s, SwitchAnswered(s, id, status), id)
  {
    hide Expire;
    ExpiryDelivers(s);
    ExpiryDelivers(Expire(s));
  }

  lemma AnswersAreBound(s: Session, id: CallId, status: nat)
    requires id in s.calls && !s.calls[id].phase.Settled?
    ensures Bound(s, AnsweredStep(s, id, status), id)
  {
    hide RequestAnswered, SwitchAnswered, LogoutFinish, Bound;
    match s.calls[id].kind
    case Request(_) => RequestAnswerIsBound(s, id, status);
    case Switch => SwitchAnswerIsBound(s, id, status);
    case Logout =>
      LogoutIsBound(s, id, Fine);
      MoveIsBound(s, id, ReadingError(status));
      MoveIsBound(s, id, ReadingBody);
    case _ =>
      MoveIsBound(s, id, ReadingError(status));
      MoveIsBound(s, id, ReadingBody);
      MoveIsBound(s, id, Finishing(Stale));
      MoveIsBound(s, id, Finishing(Failed));
      MoveIsBound(s, id, Settled(Failed));
  }

  lemma MoveIsBound(s: Session, id: CallId, phase: Phase)
    requires id in s.calls && (phase == Settled(Fine) ==> !s.calls[id].kind.Request?)
    ensures Bound(s, To(s, id, phase), id)
  {
  }

  lemma WaitingEndIsBound(s: Session, id: CallId, ending: Ending)
    requires id in s.calls && !s.calls[id].phase.Settled?
    ensures s.calls[id].kind == Switch ==> Bound(s, SwitchResumed(s, id, ending), id)
    ensures Bound(s, RequestResumed(s, id, ending), id)
  {
    hide Expire;
    ExpiryDelivers(s);
  }

  // ----- the whole step -----

  /** The call whose answer, body or continuation an event is. */
  function Acting(e: Event): Option<CallId> {
    match e
    case Answer(id, _) => Some(id)
    case Read(id, _) => Some(id)
    case Resume(id) => Some(id)
    case _ => None
  }

  lemma AnswerIsBound(s: Session, id: CallId, reply: Reply)
    requires id in s.calls && !s.calls[id].phase.Settled?
    ensures Bound(s, AnswerStep(s, id, reply), id)
  {
    hide LogoutFinish, Expire;
    LogoutIsBound(s, id, Failed);
    ExpiryDelivers(s);
  }

  lemma ContinuationIsBound(s: Session, id: CallId)
    requires Inv(s) && id in s.calls && !s.calls[id].phase.Settled?
    ensures Bound(s, ResumeStep(s, id), id)
  {
    var c := s.calls[id];
    assert CallOk(s, id, c);
    hide Inv, Bound, AnsweredStep, RestoreFinally, SwitchResumed, RequestResumed, SwitchRun, LogoutDrained, Over;
    match c.phase
    case Answered(status) => AnswersAreBound(s, id, status);
    case Finishing(ending) => FinallyIsBound(s, id, ending);
    case Waiting(flight) =>
      NothingIsBound(s, id);
      if flight in s.calls && s.calls[flight].phase.Settled? { WaitingEndIsBound(s, id, s.calls[flight].phase.ending); }
    case Queued => NothingIsBound(s, id); RunIsBound(s, id);
    case Draining(_, _) => NothingIsBound(s, id); RunIsBound(s, id);
    case _ => NothingIsBound(s, id);
  }

  lemma NothingIsBound(s: Session, id: CallId)
    requires id in s.calls && !s.calls[id].phase.Settled?
    ensures Bound(s, s, id)
  {
  }

  lemma FinallyIsBound(s: Session, id: CallId, ending: Ending)
    requires id in s.calls && s.calls[id].kind == Restore
    ensures Bound(s, RestoreFinally(s, id, ending), id)
  {
  }

  lemma RunIsBound(s: Session, id: CallId)
    requires id in s.calls && !s.calls[id].phase.Settled?
    ensures s.calls[id].kind == Switch ==> Bound(s, SwitchRun(s, id), id)
    ensures s.calls[id].kind == Logout ==> Bound(s, LogoutDrained(s, id), id)
  {
  }

  /** A step of a call delivers only in that call's own generation, and puts exactly its deliveries on record. */
  lemma DeliveriesAreCurrent(events: seq<Event>, e: Event, id: CallId)
    requires Acting(e) == Some(id) && id in After(events).calls && !After(events).calls[id].phase.Settled?
    ensures Bound(Tick(After(events)), Step(After(events), e), id)
  {
    var s := Tick(After(events));
    EveryRunKeeps(events);
    TickKeeps(After(events));
    hide Inv, Bound, AnswerStep, ReadStep, ResumeStep, After;
    match e
    case Answer(_, reply) => AnswerIsBound(s, id, reply);
    case Read(_, content) => ReadsAreBound(s, id, content);
    case Resume(_) => ContinuationIsBound(s, id);
    case _ =>
  }

  /** Beginning a call, or an event for a settled one, delivers nothing. */
  lemma OtherEventsDeliverNothing(s: Session, e: Event)
    requires Acting(e).Some? ==> Acting(e).value !in s.calls || s.calls[Acting(e).value].phase.Settled?
    ensures Step(s, e).landings == s.landings && Step(s, e).published == s.published
    ensures Acting(e).Some? ==> Step(s, e) == Tick(s)
  {
  }
}
