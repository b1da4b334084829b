/**
 What callers see of a session: which steps touch the token and how, in which order switches run, and who shares a
 restore. The client object of ApiClient does these steps.
 */
module SessionFacts {
  import opened Wrappers
  import opened SessionProtocol
  import opened SessionSafety
  import opened SessionDelivery

  // ----- the token -----

  /**
   A body arrives that may still set the token: of a selection always, of a switch in its own generation, of a restore
   in its own generation and version.
   */
  predicate Publishes(s: Session, e: Event) {
    && e.Read? && e.content.Valid? && e.id in s.calls && s.calls[e.id].phase.ReadingBody?
    && var c := s.calls[e.id];
       || c.kind == Select
       || (c.kind == Switch && c.generation == s.generation)
       || (c.kind == Restore && c.generation == s.generation && c.version == s.version)
  }

  function Published(s: Session, e: Event): Option<Token> {
    if Publishes(s, e) then Some(e.content.token) else None
  }

  /**
   The session cannot outlive a refusal of status `status`, read by a switch that is current and preserved as said.
   */
  predicate Fatal(s: Session, c: Call, status: nat, preserved: bool) {
    status >= 500 || (status == 409 && !preserved) || (c.retried && c.retry == Some(s.version))
  }

  /** Whether the answer to a switch is processed rather than retried after a restore. */
  predicate Final(c: Call, status: nat) {
    c.retry.Some? || status != 401
  }

  /** The reasons to give a held token up and tell the listeners. */
  predicate Expires(s: Session, e: Event) {
    s.token.Some? &&
    match e
    case Answer(id, reply) =>
      id in s.calls && s.calls[id].kind == Switch && s.calls[id].phase.Fetching? && reply == NoReply
    case Read(id, content) =>
      && id in s.calls && s.calls[id].kind == Switch
      && var c := s.calls[id];
         if c.phase.ReadingError? then
           Fatal(s, c, c.phase.status, c.generation == s.generation && c.phase.status == 409
             && content == Problem(true))
         else
           c.phase.ReadingBody? && (c.generation != s.generation || !content.Valid?)
    case Resume(id) =>
      && id in s.calls
      && var c := s.calls[id];
         (match c.phase
          case Answered(status) =>
            || (status == 401 && c.retry == Some(s.version) && (c.kind.Request? || c.kind == Switch))
            || (c.kind == Switch && Final(c, status) && Ok(status) && (c.generation != s.generation || status == 204))
            || (c.kind == Switch && Final(c, status) && !Ok(status) && c.generation != s.generation
                 && Fatal(s, c, status, false))
          case Waiting(flight) =>
            && flight in s.calls && s.calls[flight].phase == Settled(Failed)
            && (c.kind == Switch || c.generation == s.generation)
          case _ => false)
    case _ => false
  }

  /** The moments at which a logout drops a held token without a word. */
  predicate Discards(s: Session, e: Event) {
    s.token.Some? &&
    match e
    case CallLogout => true
    case Answer(id, reply) =>
      id in s.calls && s.calls[id].kind == Logout && s.calls[id].phase.Fetching? && reply == NoReply
    case Read(id, _) =>
      id in s.calls && s.calls[id].kind == Logout && (s.calls[id].phase.ReadingBody? || s.calls[id].phase.ReadingError?)
    case Resume(id) =>
      && id in s.calls && s.calls[id].kind == Logout
      && (match s.calls[id].phase
          case Draining(switch, restore) => Over(s, switch) && Over(s, restore)
          case Answered(status) => status == 204
          case _ => false)
    case _ => false
  }

  /** A new generation begins: with a logout, and with a switch whose turn has come while a token is held. */
  predicate Purges(s: Session, e: Event) {
    || e == CallLogout
    || (e.Resume? && e.id in s.calls && s.calls[e.id].phase.Queued? && s.queue != [] && s.queue[0] == e.id
         && s.token.Some?)
  }

  /** What one step makes of the token, its version, the generation, and the counts of publications and expiries. */
  predicate TokenStep(s: Session, s': Session, published: Option<Token>, expires: bool, discards: bool, purges: bool) {
    && s'.generation == s.generation + (if purges then 1 else 0)
    && s'.token == (if published.Some? then published else if expires || discards then None else s.token)
    && s'.version == s.version + (if published.Some? || expires || discards then 1 else 0)
    && s'.published == s.published + (if published.Some? then 1 else 0)
    && s'.expired == s.expired + (if expires then 1 else 0)
    && s'.clock >= s.clock && s'.purged == (if purges then s'.clock else s.purged)
  }

  lemma SwitchReadTokenStep(s: Session, id: CallId, content: Content)
    requires id in s.calls && s.calls[id].kind == Switch
    requires (s.calls[id].phase.ReadingBody? || s.calls[id].phase.ReadingError?)
    ensures var e := Read(id, content);
      TokenStep(s, ReadStep(s, id, content), Published(s, e), Expires(s, e), false, false)
    ensures !Discards(s, Read(id, content))
  {
  }

  lemma ReadTokenStep(s: Session, id: CallId, content: Content)
    ensures var e := Read(id, content);
      TokenStep(s, ReadStep(s, id, content), Published(s, e), Expires(s, e), Discards(s, e), Purges(s, e))
  {
    if id in s.calls && s.calls[id].kind == Switch
      && (s.calls[id].phase.ReadingBody? || s.calls[id].phase.ReadingError?) {
      SwitchReadTokenStep(s, id, content);
      hide ReadStep, Expires, Published, Discards, TokenStep;
    } else {
      hide SwitchRead, Fatal;
    }
  }

  lemma AnswerTokenStep(s: Session, id: CallId, reply: Reply)
    ensures TokenStep(s, AnswerStep(s, id, reply), None, Expires(s, Answer(id, reply)), Discards(s, Answer(id, reply)),
      false)
  {
  }

  lemma RequestTokenStep(s: Session, id: CallId, status: nat)
    requires id in s.calls && s.calls[id].kind.Request? && s.calls[id].phase == Answered(status)
    ensures TokenStep(s, RequestAnswered(s, id, status), None, Expires(s, Resume(id)), false, false)
  {
  }

  lemma SwitchTokenStep(s: Session, id: CallId, status: nat)
    requires id in s.calls && s.calls[id].kind == Switch && s.calls[id].phase == Answered(status)
    ensures TokenStep(s, SwitchAnswered(s, id, status), None, Expires(s, Resume(id)), false, false)
  {
    var c := s.calls[id];
    if c.retry.Some? || status != 401 || s.token.None? {
      hide SwitchRetry, SingleFlight;
    } else {
      hide SwitchParse;
    }
  }

  lemma WaitingTokenStep(s: Session, id: CallId, ending: Ending)
    requires id in s.calls
    ensures TokenStep(s, SwitchResumed(s, id, ending), None, s.token.Some? && ending == Failed, false, false)
    ensures TokenStep(s, RequestResumed(s, id, ending), None, s.token.Some? && ending == Failed
      && Current(s, id), false, false)
  {
  }

  lemma BeginTokenStep(s: Session, id: CallId)
    requires id in s.calls && (s.calls[id].phase.Queued? || s.calls[id].phase.Draining? || s.calls[id].phase.Finishing?)
    requires PhaseOk(s.calls[id])
    ensures TokenStep(s, ResumeStep(s, id), None, false, Discards(s, Resume(id)), Purges(s, Resume(id)))
    ensures !Expires(s, Resume(id))
  {
    hide Over;
  }

  lemma ResumeTokenStep(s: Session, id: CallId)
    requires id in s.calls ==> PhaseOk(s.calls[id])
    ensures TokenStep(s, ResumeStep(s, id), None, Expires(s, Resume(id)), Discards(s, Resume(id)),
      Purges(s, Resume(id)))
  {
    if id in s.calls {
      var c := s.calls[id];
      hide RequestAnswered, SwitchAnswered, SwitchResumed, RequestResumed;
      match c.phase
      case Answered(status) =>
        if c.kind.Request? {
          RequestTokenStep(s, id, status);
        } else if c.kind == Switch {
          SwitchTokenStep(s, id, status);
        }
      case Waiting(flight) =>
        if flight in s.calls && s.calls[flight].phase.Settled? {
          WaitingTokenStep(s, id, s.calls[flight].phase.ending);
        }
      case Queued => BeginTokenStep(s, id);
      case Draining(_, _) => BeginTokenStep(s, id);
      case Finishing(_) => BeginTokenStep(s, id);
      case _ =>
    }
  }

  lemma ClockTokenStep(s: Session, s': Session, published: Option<Token>, expires: bool, discards: bool, purges: bool)
    ensures TokenStep(Tick(s), s', published, expires, discards, purges) ==>
      TokenStep(s, s', published, expires, discards, purges)
  {
  }

  /** In every run, a step changes token and generation exactly for these reasons, and never for two of them at once. */
  lemma TokenChangesExactly(events: seq<Event>, e: Event)
    ensures var s := After(events);
      TokenStep(s, Step(s, e), Published(s, e), Expires(s, e), Discards(s, e), Purges(s, e))
  {
    var s := After(events);
    EveryRunKeeps(events);
    forall x <- s.calls ensures PhaseOk(s.calls[x]) { assert CallOk(s, x, s.calls[x]); }
    hide *;
    StepTokens(s, e);
  }

  lemma StepTokens(s: Session, e: Event)
    requires forall x <- s.calls :: PhaseOk(s.calls[x])
    ensures
      TokenStep(s, Step(s, e), Published(s, e), Expires(s, e), Discards(s, e), Purges(s, e))
  {
    hide ReadStep, AnswerStep, ResumeStep, CallStep, Expires, Discards, Published, Purges, TokenStep, PhaseOk;
    ClockIsNoReason(s, e);
    NotARead(s, e);
    ClockTokenStep(s, Step(s, e), Published(s, e), Expires(s, e), Discards(s, e), Purges(s, e));
    match e
    case Answer(id, reply) => AnswerTokenStep(Tick(s), id, reply);
    case Read(id, content) => ReadTokenStep(Tick(s), id, content);
    case Resume(id) => ResumeTokenStep(Tick(s), id);
    case _ => CallTokenStep(Tick(s), e);
  }

  lemma CallTokenStep(s: Session, e: Event)
    requires Acting(e).None?
    ensures TokenStep(s, CallStep(s, e), None, false, Discards(s, e), Purges(s, e))
    ensures !Expires(s, e)
  {
  }

  lemma NotARead(s: Session, e: Event)
    ensures Published(s, e).Some? ==> e.Read?
    ensures e.Read? || e.Answer? ==> !Purges(s, e)
  {
  }

  lemma ClockIsNoReason(s: Session, e: Event)
    ensures Published(Tick(s), e) == Published(s, e) && Expires(Tick(s), e) == Expires(s, e)
    ensures Discards(Tick(s), e) == Discards(s, e)
    ensures Purges(Tick(s), e) == Purges(s, e)
  {
  }

  // ----- logout -----

  /** While a logout runs undisturbed, a token appears exactly when a selection publishes one. */
  lemma OnlySelectionsDisturbLogout(events: seq<Event>, e: Event, id: CallId)
    requires Undisturbed(After(events), id)
    ensures Step(After(events), e).token.Some? <==>
      Publishes(After(events), e) && After(events).calls[e.id].kind == Select
  {
    var s := After(events);
    EveryRunKeeps(events);
    TokenChangesExactly(events, e);
    hide Step, After;
    if Publishes(s, e) { assert !CanPublish(s, s.calls[e.id]); }
  }

  // ----- one step and the table of calls -----

  predicate SameTable(s: Session, t: Session) {
    t.calls == s.calls && t.queue == s.queue && t.nextId == s.nextId
  }

  predicate IsOf(s: Session, id: CallId, kind: Kind) {
    id in s.calls && s.calls[id].kind == kind
  }

  /**
   A call waits for a restore of its own version and generation; a switch that has not been sent waits for any. A
   logout waits for a switch and for a restore.
   */
  predicate WaitOk(s: Session, c: Call) {
    && (c.phase.Waiting? ==>
          && IsOf(s, c.phase.flight, Restore)
          && (c.kind.Request? || c.sent > 0 ==>
                s.calls[c.phase.flight].version == c.version && s.calls[c.phase.flight].generation == c.generation))
    && (c.phase.Draining? ==>
          && (c.phase.switch.Some? ==> IsOf(s, c.phase.switch.value, Switch))
          && (c.phase.restore.Some? ==> IsOf(s, c.phase.restore.value, Restore)))
  }

  /** What never changes about a call: its kind, what a restore is for, and when a logout began. */
  predicate SameCall(c: Call, c': Call) {
    && c'.kind == c.kind
    && (c.kind == Restore ==> c'.version == c.version && c'.generation == c.generation)
    && (c.kind == Logout ==> c'.started == c.started)
  }

  /** Only call `id` has moved on, and at most left the head of the queue. */
  predicate Acts(s: Session, s': Session, id: CallId) {
    && id in s.calls && id in s'.calls && s'.calls == s.calls[id := s'.calls[id]] && s'.nextId == s.nextId
    && SameCall(s.calls[id], s'.calls[id]) && WaitOk(s, s'.calls[id])
    && (s'.queue == s.queue || (s.queue != [] && s'.queue == s.queue[1..]))
  }

  /** One call has begun. */
  predicate Begins(s: Session, s': Session) {
    && s.nextId in s'.calls && s'.calls == s.calls[s.nextId := s'.calls[s.nextId]] && s'.nextId == s.nextId + 1
    && WaitOk(s, s'.calls[s.nextId]) && (s'.calls[s.nextId].kind == Logout ==> s'.calls[s.nextId].started <= s'.purged)
    && s'.queue == (if s'.calls[s.nextId].kind == Switch then s.queue + [s.nextId] else s.queue)
  }

  predicate BeginsRestore(s: Session, s': Session) {
    Begins(s, s') && s'.calls[s.nextId].kind == Restore && s'.calls[s.nextId].phase.Fetching?
  }

  /**
   What a step does to the table: nothing, one call acts, one begins, or a restore begins for the sake of one that acts.
   */
  ghost predicate Framed(s: Session, s': Session, id: CallId) {
    || SameTable(s, s') || Acts(s, s', id) || Begins(s, s')
    || (id in s.calls && exists t: Session :: BeginsRestore(s, t) && Acts(t, s', id))
  }

  lemma SharedEdits(s: Session, id: CallId, token: Token)
    requires id in s.calls
    ensures SameTable(s, Expire(s)) && SameTable(s, Expire(Expire(s))) && SameTable(s, Discard(s))
    ensures SameTable(s, Purge(s))
    ensures SameTable(s, Publish(s, token)) && SameTable(s, Land(s, id)) && SameTable(s, Land(Publish(s, token), id))
  {
  }

  lemma PutActs(s: Session, t: Session, id: CallId, c: Call)
    requires SameTable(s, t) && id in s.calls && SameCall(s.calls[id], c) && WaitOk(s, c)
    ensures Acts(s, Put(t, id, c), id)
  {
  }

  lemma MoveActs(s: Session, t: Session, id: CallId, phase: Phase)
    requires SameTable(s, t) && id in s.calls && WaitOk(s, s.calls[id].(phase := phase))
    ensures Acts(s, To(t, id, phase), id)
  {
  }

  lemma SettleActs(s: Session, t: Session, id: CallId, ending: Ending)
    requires SameTable(s, t) && id in s.calls
    ensures Acts(s, SwitchSettle(t, id, ending), id)
  {
  }

  lemma LogoutActs(s: Session, id: CallId, ending: Ending)
    requires id in s.calls
    ensures Acts(s, LogoutFinish(s, id, ending), id) && Acts(s, LogoutDrained(s, id), id)
  {
    SharedEdits(s, id, 0);
    hide Discard;
  }

  lemma RestoreActs(s: Session, id: CallId, content: Content, ending: Ending)
    requires id in s.calls
    ensures Acts(s, RestoreRead(s, id, content), id) && Acts(s, RestoreFinally(s, id, ending), id)
  {
    var token := if content.Valid? then content.token else 0;
    SharedEdits(s, id, token);
    hide Acts, Land, Publish, To;
    MoveActs(s, s, id, Finishing(Stale));
    MoveActs(s, s, id, Finishing(Failed));
    MoveActs(s, Land(Publish(s, token), id), id, Finishing(Fine));
    MoveActs(s, s, id, Settled(ending));
    MoveActs(s, s.(flight := None), id, Settled(ending));
  }

  lemma RequestActs(s: Session, id: CallId, status: nat, content: Content, ending: Ending)
    requires id in s.calls
    ensures Acts(s, RequestRead(s, id, content), id) && Acts(s, RequestResumed(s, id, ending), id)
    ensures Acts(s, RequestRetry(s, id), id)
    ensures Acts(s, RequestParse(s, id, status), id) && Acts(s, RequestParse(Expire(s), id, status), id)
  {
    SharedEdits(s, id, 0);
    ParseActs(s, s, id, status);
    ParseActs(s, Expire(s), id, status);
    hide Acts, Land, Expire, To, Put, RequestParse;
    var c := s.calls[id].(retry := Some(s.version));
    PutActs(s, s, id, c.(phase := Settled(Stale)));
    PutActs(s, s, id, c.(phase := Fetching, sent := c.sent + 1));
    MoveActs(s, s, id, Settled(Stale));
    MoveActs(s, s, id, Settled(Failed));
    MoveActs(s, Expire(s), id, Settled(Failed));
    MoveActs(s, Land(s, id), id, Settled(Fine));
  }

  lemma ParseActs(s: Session, t: Session, id: CallId, status: nat)
    requires SameTable(s, t) && id in s.calls
    ensures Acts(s, RequestParse(t, id, status), id) && Acts(s, SwitchParse(t, id, status), id)
  {
    SharedEdits(t, id, 0);
    hide Acts, Land, Expire, To, SwitchSettle;
    MoveActs(s, t, id, Settled(Stale));
    MoveActs(s, t, id, ReadingError(status));
    MoveActs(s, t, id, ReadingBody);
    MoveActs(s, Land(t, id), id, Settled(Fine));
    SettleActs(s, t, id, Stale);
    SettleActs(s, Expire(t), id, Stale);
    SettleActs(s, Expire(t), id, Failed);
  }

  lemma SwitchActs(s: Session, id: CallId, content: Content, ending: Ending)
    requires id in s.calls && s.calls[id].kind == Switch
    ensures Acts(s, SwitchRead(s, id, content), id) && Acts(s, SwitchResumed(s, id, ending), id)
    ensures Acts(s, SwitchRetry(s, id), id) && Acts(s, SwitchSettle(s, id, ending), id)
  {
    var token := if content.Valid? then content.token else 0;
    SharedEdits(s, id, token);
    hide Acts, Land, Publish, Expire, Purge, Put, SwitchSettle, Current;
    SettleActs(s, s, id, Stale);
    SettleActs(s, s, id, Failed);
    SettleActs(s, s, id, ending);
    SettleActs(s, Expire(s), id, Stale);
    SettleActs(s, Expire(s), id, Failed);
    SettleActs(s, Land(Publish(s, token), id), id, Fine);
    var c := s.calls[id];
    PutActs(s, s, id,
      c.(retried := c.version != s.version, retry := Some(s.version), phase := Fetching, sent := c.sent + 1));
    PutActs(s, s, id, c.(version := s.version, phase := Fetching, sent := c.sent + 1));
  }

  /** The flight on record is a restore for the version and generation on record. */
  predicate FlightOk(s: Session) {
    s.flight.Some? ==>
      && s.flight.value.call in s.calls && s.calls[s.flight.value.call].kind == Restore
      && s.calls[s.flight.value.call].version == s.flight.value.version
      && s.calls[s.flight.value.call].generation == s.flight.value.generation
  }

  lemma RunActs(s: Session, id: CallId)
    requires id in s.calls && s.calls[id].kind == Switch && s.calls[id].sent == 0 && FlightOk(s)
    ensures Acts(s, SwitchRun(s, id), id)
  {
    SharedEdits(s, id, 0);
  }

  /** A call that starts a restore waits for it. */
  lemma FlightFrames(s: Session, id: CallId, version: nat, generation: nat)
    requires id in s.calls && s.nextId !in s.calls && FlightOk(s)
    requires version == s.calls[id].version && generation == s.calls[id].generation
    ensures var (s', flight) := SingleFlight(s, version, generation);
      id in s'.calls && (SameTable(s, s') || BeginsRestore(s, s'))
        && (flight.Some? ==> Framed(s, To(s', id, Waiting(flight.value)), id))
  {
    var (s', flight) := SingleFlight(s, version, generation);
    if flight.Some? { MoveActs(s', s', id, Waiting(flight.value)); }
  }

  lemma RequestAnswerFrames(s: Session, id: CallId, status: nat)
    requires s.nextId !in s.calls && id in s.calls && s.calls[id].kind.Request? && FlightOk(s)
    ensures Framed(s, RequestAnswered(s, id, status), id)
  {
    RequestActs(s, id, status, Invalid, Fine);
    MoveActs(s, s, id, Settled(Stale));
    FlightFrames(s, id, s.calls[id].version, s.calls[id].generation);
    hide SingleFlight, To, RequestParse, RequestRetry, Expire, Acts, Begins, BeginsRestore;
  }

  lemma SwitchAnswerFrames(s: Session, id: CallId, status: nat)
    requires s.nextId !in s.calls && id in s.calls && s.calls[id].kind == Switch && FlightOk(s)
    ensures Framed(s, SwitchAnswered(s, id, status), id)
  {
    SharedEdits(s, id, 0);
    ParseActs(s, s, id, status);
    ParseActs(s, Expire(s), id, status);
    SwitchActs(s, id, Invalid, Stale);
    FlightFrames(s, id, s.calls[id].version, s.calls[id].generation);
    hide SingleFlight, To, SwitchParse, SwitchRetry, SwitchSettle, Expire, Acts, Begins, BeginsRestore;
  }

  lemma AnsweredFrames(s: Session, id: CallId, status: nat)
    requires s.nextId !in s.calls && id in s.calls && FlightOk(s)
    ensures Framed(s, AnsweredStep(s, id, status), id)
  {
    hide Acts, Begins, BeginsRestore, RequestAnswered, SwitchAnswered, LogoutFinish, To;
    match s.calls[id].kind
    case Request(_) => RequestAnswerFrames(s, id, status);
    case Switch => SwitchAnswerFrames(s, id, status);
    case _ =>
      LogoutActs(s, id, Fine);
      MoveActs(s, s, id, ReadingError(status));
      MoveActs(s, s, id, ReadingBody);
      MoveActs(s, s, id, Finishing(Stale));
      MoveActs(s, s, id, Finishing(Failed));
      MoveActs(s, s, id, Settled(Failed));
  }

  lemma SelectActs(s: Session, id: CallId, content: Content)
    requires id in s.calls
    ensures Acts(s, SelectRead(s, id, content), id)
  {
    var token := if content.Valid? then content.token else 0;
    SharedEdits(s, id, token);
    hide Acts, To, Publish;
    MoveActs(s, Publish(s, token).(selects := s.selects + 1), id, Settled(Fine));
    MoveActs(s, s, id, Settled(Failed));
  }

  lemma ReadActs(s: Session, id: CallId, content: Content)
    requires id in s.calls && (s.calls[id].phase.ReadingBody? || s.calls[id].phase.ReadingError?)
    ensures Acts(s, ReadStep(s, id, content), id)
  {
    hide Acts, RestoreRead, RequestRead, SwitchRead, SelectRead, LogoutFinish;
    var content := if s.calls[id].phase.ReadingError? && content.Valid? then Invalid else content;
    match s.calls[id].kind
    case Restore => RestoreActs(s, id, content, Fine);
    case Request(_) => RequestActs(s, id, 0, content, Fine);
    case Switch => SwitchActs(s, id, content, Fine);
    case Select => SelectActs(s, id, content);
    case Logout => LogoutActs(s, id, if s.calls[id].phase.ReadingBody? && content.Valid? then Fine else Failed);
  }

  lemma ReadFrames(s: Session, id: CallId, content: Content)
    ensures Framed(s, ReadStep(s, id, content), id)
  {
    hide Acts, Begins, BeginsRestore;
    if id in s.calls && (s.calls[id].phase.ReadingBody? || s.calls[id].phase.ReadingError?) {
      ReadActs(s, id, content);
      hide ReadStep;
    }
  }

  lemma AnswerFrames(s: Session, id: CallId, reply: Reply)
    ensures Framed(s, AnswerStep(s, id, reply), id)
  {
    if id in s.calls {
      hide Acts, Begins, BeginsRestore, LogoutFinish, To, SwitchSettle, Expire;
      SharedEdits(s, id, 0);
      LogoutActs(s, id, Failed);
      SettleActs(s, Expire(s), id, Failed);
      MoveActs(s, s, id, Settled(Failed));
      MoveActs(s, s, id, Settled(Stale));
      MoveActs(s, s, id, Finishing(Failed));
      if reply.Status? { MoveActs(s, s, id, Answered(reply.code)); }
    }
  }

  lemma FlightIsOk(s: Session)
    requires Inv(s)
    ensures FlightOk(s)
  {
    if s.flight.Some? { assert CallOk(s, s.flight.value.call, s.calls[s.flight.value.call]); }
  }

  lemma ResumeFrames(s: Session, id: CallId)
    requires s.nextId !in s.calls && Inv(s)
    ensures Framed(s, ResumeStep(s, id), id)
  {
    if id in s.calls {
      FlightIsOk(s);
      assert CallOk(s, id, s.calls[id]);
      hide Inv, FlightOk, Acts, Begins, BeginsRestore, AnsweredStep, RestoreFinally, SwitchResumed, RequestResumed,
           SwitchRun, LogoutDrained, Over;
      match s.calls[id].phase
      case Answered(status) => AnsweredFrames(s, id, status);
      case Finishing(ending) => RestoreActs(s, id, Invalid, ending);
      case Waiting(flight) =>
        if flight in s.calls && s.calls[flight].phase.Settled? {
          RequestActs(s, id, 0, Invalid, s.calls[flight].phase.ending);
          if s.calls[id].kind == Switch { SwitchActs(s, id, Invalid, s.calls[flight].phase.ending); }
        }
      case Queued => RunActs(s, id);
      case Draining(_, _) => LogoutActs(s, id, Fine);
      case _ =>
    }
  }

  lemma CallFrames(s: Session, e: Event)
    requires s.nextId !in s.calls && Acting(e).None? && FlightOk(s)
    requires forall q <- s.queue :: IsOf(s, q, Switch)
    ensures SameTable(s, CallStep(s, e)) || Begins(s, CallStep(s, e))
  {
  }

  lemma StepFrames(events: seq<Event>, e: Event)
    ensures var s := After(events);
      Framed(Tick(s), Step(s, e), if Acting(e).Some? then Acting(e).value else s.nextId) && s.nextId !in s.calls
  {
    var s := After(events);
    EveryRunKeeps(events);
    FreshId(s);
    TickKeeps(s);
    hide Inv, ReadStep, AnswerStep, ResumeStep, CallStep, After, Acts, Begins, BeginsRestore;
    match e
    case Answer(id, reply) => AnswerFrames(Tick(s), id, reply);
    case Read(id, content) => ReadFrames(Tick(s), id, content);
    case Resume(id) => ResumeFrames(Tick(s), id);
    case _ =>
      QueueIsOk(Tick(s));
      FlightIsOk(Tick(s));
      CallFrames(Tick(s), e);
  }

  lemma QueueIsOk(s: Session)
    requires Inv(s)
    ensures forall q <- s.queue :: IsOf(s, q, Switch)
  {
    forall q <- s.queue ensures IsOf(s, q, Switch) { assert IsLive(s, q, Switch); }
  }

  // ----- switches run one after the other -----

  predicate IsSwitch(s: Session, id: CallId) {
    id in s.calls && s.calls[id].kind == Switch
  }

  /** The queue is in order of call, and every switch that has left it came before. */
  ghost predicate Ordered(s: Session) {
    && (forall i, j | 0 <= i < j < |s.queue| :: s.queue[i] < s.queue[j])
    && (forall x, q | IsSwitch(s, x) && x !in s.queue && q in s.queue :: x < q)
  }

  lemma {:induction false} EveryRunOrders(events: seq<Event>)
    ensures Ordered(After(events))
  {
    hide Step;
    if events == [] {
    } else {
      var before, e := events[..|events| - 1], events[|events| - 1];
      var s := After(before);
      EveryRunOrders(before);
      EveryRunKeeps(before);
      TickKeeps(s);
      StepFrames(before, e);
      hide Inv, Ordered, Framed;
      assert Ordered(Tick(s)) by { TickOrders(s); }
      OrderIsKept(Tick(s), Step(s, e), if Acting(e).Some? then Acting(e).value else s.nextId);
    }
  }

  lemma TickOrders(s: Session)
    requires Ordered(s)
    ensures Ordered(Tick(s))
  {
    forall x ensures IsSwitch(Tick(s), x) <==> IsSwitch(s, x) {}
  }

  lemma OrderIsKept(s: Session, s': Session, id: CallId)
    requires Ordered(s) && Framed(s, s', id) && Inv(s)
    ensures Ordered(s')
  {
    if t: Session :| BeginsRestore(s, t) && Acts(t, s', id) {
      BeginningOrders(s, t);
      ActingOrders(t, s', id);
    } else if Acts(s, s', id) {
      ActingOrders(s, s', id);
    } else if Begins(s, s') {
      BeginningOrders(s, s');
    } else {
      forall x ensures IsSwitch(s', x) <==> IsSwitch(s, x) {}
    }
  }

  lemma BeginningOrders(s: Session, t: Session)
    requires Ordered(s) && Begins(s, t) && Inv(s)
    ensures Ordered(t)
  {
    forall q <- s.queue ensures q < s.nextId { assert IsLive(s, q, Switch) && CallOk(s, q, s.calls[q]); }
    forall x <- s.calls ensures x < s.nextId { assert CallOk(s, x, s.calls[x]); }
    hide Inv;
    assert t.calls[s.nextId].kind == Switch ==> t.queue[|s.queue|] == s.nextId;
    forall i, j | 0 <= i < j < |t.queue| ensures t.queue[i] < t.queue[j] {
      if j == |s.queue| { assert s.queue[i] in s.queue; }
    }
    forall x, q | IsSwitch(t, x) && x !in t.queue && q in t.queue ensures x < q {
      if x != s.nextId { assert IsSwitch(s, x) && x !in s.queue; }
    }
  }

  lemma ActingOrders(s: Session, s': Session, id: CallId)
    requires Ordered(s) && Acts(s, s', id)
    ensures Ordered(s')
  {
    forall x, q | IsSwitch(s', x) && x !in s'.queue && q in s'.queue ensures x < q {
      assert IsSwitch(s, x);
      if s'.queue != s.queue {
        assert s.queue == [s.queue[0]] + s'.queue;
        assert x in s.queue ==> x == s.queue[0];
        var j :| 0 <= j < |s'.queue| && s'.queue[j] == q;
        assert s.queue[j + 1] == q && q in s.queue && s.queue[0] < q;
      }
    }
  }

  /** A switch that has begun finds every earlier switch settled. */
  lemma SwitchesRunInOrder(events: seq<Event>, a: CallId, b: CallId)
    requires IsSwitch(After(events), a) && IsSwitch(After(events), b) && a < b && !After(events).calls[b].phase.Queued?
    ensures After(events).calls[a].phase.Settled?
  {
    var s := After(events);
    EveryRunKeeps(events);
    EveryRunOrders(events);
    assert CallOk(s, a, s.calls[a]) && CallOk(s, b, s.calls[b]);
    hide After, Inv;
    EarlierIsSettled(s, a, b);
  }

  lemma EarlierIsSettled(s: Session, a: CallId, b: CallId)
    requires Ordered(s) && IsSwitch(s, a) && IsSwitch(s, b) && a < b && !s.calls[b].phase.Queued?
    requires ListedOk(s, a, s.calls[a]) && ListedOk(s, b, s.calls[b]) && (b in s.queue ==> Live(s.calls[b]))
    ensures s.calls[a].phase.Settled?
  {
    assert b in s.queue ==> s.queue[0] == b;
    forall i | 0 <= i < |s.queue| ensures s.queue[i] != a { assert s.queue[i] in s.queue; }
  }

  // ----- waiters share the restore -----

  ghost predicate Waits(s: Session) {
    forall x <- s.calls :: WaitOk(s, s.calls[x])
  }

  lemma BeginningWaits(s: Session, t: Session)
    requires Waits(s) && Begins(s, t) && s.nextId !in s.calls
    ensures Waits(t)
  {
    forall x <- t.calls ensures WaitOk(t, t.calls[x]) { if x != s.nextId { assert WaitOk(s, s.calls[x]); } }
  }

  lemma ActingWaits(s: Session, s': Session, id: CallId)
    requires Waits(s) && Acts(s, s', id)
    ensures Waits(s')
  {
    forall x <- s'.calls ensures WaitOk(s', s'.calls[x]) { if x != id { assert WaitOk(s, s.calls[x]); } }
  }

  lemma StepWaits(s: Session, s': Session, id: CallId)
    requires Waits(s) && Framed(s, s', id) && s.nextId !in s.calls
    ensures Waits(s')
  {
    if t: Session :| BeginsRestore(s, t) && Acts(t, s', id) {
      BeginningWaits(s, t);
      ActingWaits(t, s', id);
    } else if Acts(s, s', id) {
      ActingWaits(s, s', id);
    } else if Begins(s, s') {
      BeginningWaits(s, s');
    } else {
      forall x <- s'.calls ensures WaitOk(s', s'.calls[x]) { assert WaitOk(s, s.calls[x]); }
    }
  }

  lemma {:induction false} EveryRunWaits(events: seq<Event>)
    ensures Waits(After(events))
  {
    hide Step;
    if events == [] {
    } else {
      var before, e := events[..|events| - 1], events[|events| - 1];
      var s := After(before);
      EveryRunWaits(before);
      StepFrames(before, e);
      hide Waits, Framed;
      assert Waits(Tick(s)) by { TickWaits(s); }
      StepWaits(Tick(s), Step(s, e), if Acting(e).Some? then Acting(e).value else s.nextId);
    }
  }

  lemma TickWaits(s: Session)
    requires Waits(s)
    ensures Waits(Tick(s))
  {
    forall x <- s.calls ensures WaitOk(Tick(s), s.calls[x]) { assert WaitOk(s, s.calls[x]); }
  }

  /**
   Whoever waits for a restore that has not settled waits for the one flight; whoever was sent before waits for his own
   version and generation.
   */
  lemma WaitersShareTheFlight(events: seq<Event>, id: CallId)
    requires var s := After(events); id in s.calls && s.calls[id].phase.Waiting?
    ensures var s := After(events);
      var c, f := s.calls[id], s.calls[id].phase.flight;
      && f in s.calls && s.calls[f].kind == Restore
      && (Live(s.calls[f]) ==> s.flight == Some(Flight(f, s.calls[f].version, s.calls[f].generation)))
      && (c.kind.Request? || c.sent > 0 ==> s.calls[f].version == c.version && s.calls[f].generation == c.generation)
  {
    var s := After(events);
    EveryRunKeeps(events);
    EveryRunWaits(events);
    assert WaitOk(s, s.calls[id]);
    var f := s.calls[id].phase.flight;
    assert CallOk(s, f, s.calls[f]);
  }

  // ----- who publishes during a logout -----

  /** A logout begins with a purge. */
  ghost predicate LogoutsPurged(s: Session) {
    forall x <- s.calls | s.calls[x].kind == Logout :: s.calls[x].started <= s.purged
  }

  lemma StepPurges(s: Session, s': Session, id: CallId)
    requires LogoutsPurged(s) && Framed(s, s', id) && s.nextId !in s.calls && s'.purged >= s.purged
    ensures LogoutsPurged(s')
  {
    forall x <- s'.calls | s'.calls[x].kind == Logout ensures s'.calls[x].started <= s'.purged {
      if x in s.calls { assert s.calls[x].kind == Logout ==> s.calls[x].started <= s.purged; }
    }
  }

  lemma {:induction false} EveryRunPurges(events: seq<Event>)
    ensures LogoutsPurged(After(events))
  {
    hide Step;
    if events == [] {
    } else {
      var before, e := events[..|events| - 1], events[|events| - 1];
      var s := After(before);
      EveryRunPurges(before);
      EveryRunKeeps(before);
      TokenChangesExactly(before, e);
      TickKeeps(s);
      StepFrames(before, e);
      hide LogoutsPurged, Framed, Publishes, Expires, Discards, Purges, CallsOk, Quiet;
      assert LogoutsPurged(Tick(s)) by { TickPurges(s); }
      StepPurges(Tick(s), Step(s, e), if Acting(e).Some? then Acting(e).value else s.nextId);
    }
  }

  lemma TickPurges(s: Session)
    requires LogoutsPurged(s)
    ensures LogoutsPurged(Tick(s))
  {
  }

  /**
   A token arrives while a logout waits: it comes from a selection, or from a restore or switch that began after the
   logout, and then a selection has published since the logout began.
   */
  lemma LogoutPublishers(events: seq<Event>, e: Event, id: CallId)
    requires id in After(events).leaving && Publishes(After(events), e)
    ensures var s := After(events);
      && id in s.calls
      && (s.calls[e.id].kind != Select ==>
            s.calls[e.id].started >= s.calls[id].started && s.selects > s.calls[id].selects)
  {
    var s := After(events);
    EveryRunKeeps(events);
    EveryRunPurges(events);
    assert IsLive(s, id, Logout) && CallOk(s, id, s.calls[id]) && CallOk(s, e.id, s.calls[e.id]);
    hide After;
    if s.calls[e.id].kind != Select {
      assert CanPublish(s, s.calls[e.id]);
      PublisherDisturbs(s, e.id);
      assert !Undisturbed(s, id);
    }
  }
}
