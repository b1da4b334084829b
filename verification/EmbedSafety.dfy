/** What every interleaving of an embedded session keeps. */
module EmbedSafety {
  import opened Wrappers
  import opened EmbedProtocol

  // ----- the invariant -----

  ghost predicate InGrantedInbox(s: Embed)
    requires s.context.Some?
  {
    && s.context.value.accountId == s.accountId
    && exists c <- s.connections :: c.integrationId == s.selected && c.inboxId == s.context.value.inboxId
  }

  /** Authorized means holding a token, inside the granted inbox, showing only what belongs to the selection. */
  ghost predicate StatusOk(s: Embed) {
    && (s.status == Authorized <==> s.token.Some?)
    && (s.verifier.Some? ==> s.status == Starting || s.status == AwaitingApproval)
    && (s.invalidContext ==> s.context.None? && s.status != Authorized)
    && (s.status == Authorized && s.context.Some? ==> InGrantedInbox(s))
    && (s.health.Some? ==> s.status == Authorized && s.health.value.integrationId == s.selected)
    && (s.action.Some? || s.busy ==> s.status == Authorized)
  }

  predicate Chained(job: Job) {
    match job
    case Refreshing(_, chain) => chain.Some?
    case Pairing(_) => false
    case _ => true
  }

  /** A call of the current generation finds the session in the state its job expects. */
  ghost predicate CallOk(s: Embed, c: Call) {
    && c.generation <= s.generation && c.selection <= s.selection
    && (c.job.Refreshing? && c.job.chain.Some? ==> c.job.chain.value == c.generation)
    && (c.generation == s.generation ==>
          match c.job
          case Digesting => s.status == Starting
          case Beginning => s.status == Starting
          case Exchanging(_) => s.status == AwaitingApproval
          case Refreshing(id, _) => s.status == Authorized && (c.selection == s.selection ==> id == s.selected)
          case Scheduling => s.status == Authorized
          case Pairing(id) => s.status == Authorized && (c.selection == s.selection ==> s.busy && id == s.selected))
  }

  ghost predicate CallsOk(s: Embed) {
    forall id <- s.calls :: id < s.nextId && CallOk(s, s.calls[id])
  }

  /** Every live timer is on record and belongs to the running session. */
  ghost predicate TimerOk(s: Embed, t: TimerId) {
    t in s.timers ==>
      match s.timers[t]
      case Expiry => s.expiry == Some(t) && (s.status == AwaitingApproval || s.status == Authorized)
      case Poll(_, generation) => s.poll == Some(t) && generation == s.generation && s.status == AwaitingApproval
      case HealthPoll(generation) => s.poll == Some(t) && generation == s.generation && s.status == Authorized
  }

  ghost predicate TimersOk(s: Embed) {
    && (forall t <- s.timers :: t < s.nextId && TimerOk(s, t))
    && (s.status == AwaitingApproval || s.status == Authorized ==>
          s.expiry.Some? && s.expiry.value in s.timers && s.timers[s.expiry.value] == Expiry)
  }

  ghost predicate OnChain(s: Embed, id: CallId) {
    id in s.calls && s.calls[id].generation == s.generation && Chained(s.calls[id].job)
  }

  /** One thread of control per generation: a single chained call, or a single poll timer. */
  ghost predicate ChainOk(s: Embed) {
    && (forall a, b | OnChain(s, a) && OnChain(s, b) :: a == b)
    && (forall a, t | OnChain(s, a) && t in s.timers :: s.timers[t] == Expiry)
  }

  ghost predicate PairPending(s: Embed, id: CallId) {
    id in s.calls && s.calls[id].job.Pairing? && Fresh(s, id)
  }

  ghost predicate BusyOk(s: Embed) {
    && (s.busy <==> exists id :: PairPending(s, id))
    && (forall a, b | PairPending(s, a) && PairPending(s, b) :: a == b)
  }

  ghost predicate Inv(s: Embed) {
    StatusOk(s) && CallsOk(s) && TimersOk(s) && ChainOk(s) && BusyOk(s)
  }

  // ----- edits -----

  lemma StopClearsTimers(s: Embed, status: Status)
    requires TimersOk(s)
    ensures StopAs(s, status).timers == map[]
  {
    var t := StopAs(s, status).timers;
    forall x ensures x !in t { assert x in s.timers ==> TimerOk(s, x); }
  }

  lemma StopKeeps(s: Embed, status: Status)
    requires Inv(s) && status != Authorized && status != AwaitingApproval
    ensures Inv(StopAs(s, status))
    ensures forall id :: !OnChain(StopAs(s, status), id) && !PairPending(StopAs(s, status), id)
  {
    StopClearsTimers(s, status);
    var s' := StopAs(s, status);
    forall id <- s'.calls ensures CallOk(s', s'.calls[id]) { assert CallOk(s, s.calls[id]); }
    forall id ensures !OnChain(s', id) && !PairPending(s', id) {}
  }

  /** Dropping a call keeps the invariant, unless it is the pairing that keeps the session busy. */
  lemma FinishKeeps(s: Embed, id: CallId)
    requires Inv(s) && !PairPending(s, id)
    ensures Inv(Finish(s, id))
    ensures OnChain(s, id) ==> forall x :: !OnChain(Finish(s, id), x)
  {
    var s' := Finish(s, id);
    forall x <- s'.calls ensures CallOk(s', s'.calls[x]) { assert CallOk(s, s.calls[x]); }
    forall t <- s'.timers ensures TimerOk(s', t) { assert TimerOk(s, t); }
    forall x ensures OnChain(s', x) <==> OnChain(s, x) && x != id {}
    forall x ensures PairPending(s', x) <==> PairPending(s, x) {}
  }

  /** A pairing of the running session starts or ends. */
  lemma PairEndKeeps(s: Embed, id: CallId, action: Option<Action>)
    requires Inv(s) && PairPending(s, id)
    ensures Inv(Finish(s, id).(busy := false, action := action))
  {
    assert CallOk(s, s.calls[id]);
    var s' := Finish(s, id).(busy := false, action := action);
    forall x ensures OnChain(s', x) <==> OnChain(s, x) {}
    forall x ensures !PairPending(s', x) { if PairPending(s', x) { assert PairPending(s, x); } }
    forall x <- s'.calls ensures CallOk(s', s'.calls[x]) {
      assert CallOk(s, s.calls[x]);
      assert !PairPending(s', x);
    }
    forall t <- s'.timers ensures TimerOk(s', t) { assert TimerOk(s, t); }
  }

  /** A new call that fits the session, and takes the chain only when it is free. */
  lemma LaunchKeeps(s: Embed, c: Call)
    requires Inv(s) && CallOk(s, c) && !c.job.Pairing?
    requires Chained(c.job) && c.generation == s.generation ==>
      (forall x :: !OnChain(s, x)) && forall t <- s.timers :: s.timers[t] == Expiry
    ensures Inv(s.(calls := s.calls[s.nextId := c], nextId := s.nextId + 1))
  {
    var s' := s.(calls := s.calls[s.nextId := c], nextId := s.nextId + 1);
    forall x <- s'.calls ensures CallOk(s', s'.calls[x]) { if x != s.nextId { assert CallOk(s, s.calls[x]); } }
    forall t <- s'.timers ensures TimerOk(s', t) { assert TimerOk(s, t); }
    forall x | OnChain(s', x) ensures x == s.nextId || OnChain(s, x) {}
    forall x ensures PairPending(s', x) <==> PairPending(s, x) {}
  }

  /** The poll is armed when nothing else is on the chain. */
  lemma SetPollKeeps(s: Embed, timer: Timer)
    requires Inv(s) && (forall x :: !OnChain(s, x)) && (forall t <- s.timers :: s.timers[t] == Expiry)
    requires match timer
      case Expiry => false
      case Poll(_, generation) => generation == s.generation && s.status == AwaitingApproval
      case HealthPoll(generation) => generation == s.generation && s.status == Authorized
    ensures Inv(SetPoll(s, timer))
  {
    var s' := SetPoll(s, timer);
    forall x <- s'.calls ensures CallOk(s', s'.calls[x]) { assert CallOk(s, s.calls[x]); }
    forall t <- s'.timers ensures TimerOk(s', t) { if t != s.nextId { assert TimerOk(s, t); } }
    forall x ensures !OnChain(s', x) { assert !OnChain(s, x); }
    forall x ensures PairPending(s', x) <==> PairPending(s, x) {}
  }

  lemma CheckActiveKeeps(s: Embed)
    requires Inv(s)
    ensures var (t, active) := CheckActive(s);
      && Inv(t)
      && (active ==> t == s && s.status == Authorized)
      && (!active && t == s ==> s.status != Authorized)
      && (t != s ==> (forall x :: !OnChain(t, x)) && t.generation == s.generation + 1 && t.timers == map[])
      && t.calls == s.calls && t.nextId == s.nextId
  {
    if s.status == Authorized && s.expiresAt <= s.now {
      StopKeeps(s, Expired);
      StopClearsTimers(s, Expired);
    }
  }

  // ----- segments -----

  lemma RefreshSegmentKeeps(s: Embed, chain: Option<nat>)
    requires Inv(s)
    requires chain.Some? ==> chain.value == s.generation && s.status == Authorized
    requires chain.Some? ==> (forall x :: !OnChain(s, x)) && forall t <- s.timers :: s.timers[t] == Expiry
    ensures Inv(RefreshSegment(s, chain))
  {
    CheckActiveKeeps(s);
    var (t, active) := CheckActive(s);
    hide Inv;
    if active && t.selected != "" {
      LaunchKeeps(t, Call(Refreshing(t.selected, chain), t.generation, t.selection));
    } else if chain.Some? {
      LaunchKeeps(t, Call(Scheduling, chain.value, t.selection));
    }
  }

  lemma BeginSegmentKeeps(s: Embed, verifier: nat)
    requires Inv(s)
    ensures Inv(BeginSegment(s, verifier))
  {
    StopKeeps(s, Starting);
    StopClearsTimers(s, Starting);
    var t := StopAs(s, Starting);
    var u := t.(verifier := Some(verifier));
    assert Inv(u) by {
      forall x <- u.calls ensures CallOk(u, u.calls[x]) { assert CallOk(t, t.calls[x]); }
      forall x ensures OnChain(u, x) <==> OnChain(t, x) {}
      forall x ensures PairPending(u, x) <==> PairPending(t, x) {}
    }
    forall x ensures !OnChain(u, x) { assert !OnChain(t, x); }
    hide Inv;
    LaunchKeeps(u, Call(Digesting, u.generation, u.selection));
  }

  lemma DigestedSegmentKeeps(s: Embed, id: CallId, ok: bool)
    requires Inv(s) && id in s.calls && s.calls[id].job == Digesting
    ensures Inv(DigestedSegment(s, id, ok))
  {
    assert CallOk(s, s.calls[id]);
    FinishKeeps(s, id);
    if s.calls[id].generation == s.generation {
      if ok {
        var s' := DigestedSegment(s, id, ok);
        forall x <- s'.calls ensures CallOk(s', s'.calls[x]) { if x != id { assert CallOk(s, s.calls[x]); } }
        forall t ensures TimerOk(s', t) { assert t in s.timers ==> TimerOk(s, t); }
        forall x ensures OnChain(s', x) <==> OnChain(s, x) {}
        forall x ensures PairPending(s', x) <==> PairPending(s, x) {}
      } else {
        StopKeeps(Finish(s, id), Unavailable);
      }
    }
  }

  lemma StartedSegmentKeeps(s: Embed, id: CallId, start: StartReply)
    requires Inv(s) && id in s.calls && s.calls[id].job == Beginning
    ensures Inv(StartedSegment(s, id, start))
  {
    assert CallOk(s, s.calls[id]);
    FinishKeeps(s, id);
    var t := Finish(s, id);
    if s.calls[id].generation == s.generation {
      if start.StartFailed? {
        StopKeeps(t, if start.refusal.Some? && start.refusal.value in {401, 403, 404} then Denied else Unavailable);
      } else {
        var deadline := Min(start.expiresAt, s.now + 120000);
        if deadline <= s.now {
          StopKeeps(t, Expired);
        } else {
          var u := SetExpiry(t.(status := AwaitingApproval, expiresAt := deadline));
          AwaitKeeps(t, deadline);
          hide Inv;
          forall x ensures !OnChain(u, x) { assert !OnChain(t, x); }
          SetPollKeeps(u, Poll(start.request, s.generation));
        }
      }
    }
  }

  /** Waiting for approval: the expiry is armed, and no poll is live yet. */
  lemma AwaitKeeps(t: Embed, deadline: int)
    requires Inv(t) && t.status == Starting && forall x :: !OnChain(t, x)
    ensures var u := SetExpiry(t.(status := AwaitingApproval, expiresAt := deadline));
      Inv(u) && forall x <- u.timers :: u.timers[x] == Expiry
  {
    var u := SetExpiry(t.(status := AwaitingApproval, expiresAt := deadline));
    forall x ensures x !in t.timers { assert x in t.timers ==> TimerOk(t, x); }
    forall x <- u.calls ensures CallOk(u, u.calls[x]) { assert CallOk(t, t.calls[x]); assert !OnChain(t, x); }
    forall x ensures !OnChain(u, x) { assert !OnChain(t, x); }
    forall x ensures PairPending(u, x) <==> PairPending(t, x) {}
    forall x <- u.timers ensures TimerOk(u, x) {}
  }

  /** Authorization replaces the expiry and holds the token. */
  lemma AuthorizeKeeps(t: Embed, g: ExchangeReply, expiresAt: int)
    requires Inv(t) && t.status == AwaitingApproval && !t.invalidContext && g.Granted?
    requires t.context.Some? ==> GrantedBy(t.context.value, g.accountId, g.connections)
    requires (forall x :: !OnChain(t, x)) && forall x <- t.timers :: t.timers[x] == Expiry
    ensures var u := Authorize(t, g, expiresAt);
      Inv(u) && u.status == Authorized && u.generation == t.generation
      && (forall x :: !OnChain(u, x)) && forall x <- u.timers :: u.timers[x] == Expiry
  {
    var u := Authorize(t, g, expiresAt);
    forall x ensures !OnChain(u, x) { assert !OnChain(t, x); }
    forall x ensures !PairPending(u, x) && !PairPending(t, x) { assert x in t.calls ==> CallOk(t, t.calls[x]); }
    forall x <- u.calls ensures CallOk(u, u.calls[x]) { assert CallOk(t, t.calls[x]); assert !OnChain(t, x); }
    forall x <- u.timers ensures TimerOk(u, x) { if x != t.nextId { assert TimerOk(t, x); } }
  }

  lemma FailKeeps(s: Embed, refusal: Refusal)
    requires Inv(s)
    ensures Inv(Fail(s, refusal))
  {
    StopKeeps(s, if refusal.Some? && refusal.value in {401, 403, 404} then Denied else Unavailable);
  }

  /** The exchange of the running session has answered, and its call is gone. */
  ghost predicate Exchanged(t: Embed) {
    && Inv(t) && t.status == AwaitingApproval
    && (forall x :: !OnChain(t, x)) && (forall x <- t.timers :: t.timers[x] == Expiry)
  }

  lemma ExchangeIsOver(s: Embed, id: CallId)
    requires Inv(s) && id in s.calls && s.calls[id].job.Exchanging?
    ensures Inv(Finish(s, id))
    ensures s.calls[id].generation == s.generation ==> Exchanged(Finish(s, id))
  {
    assert CallOk(s, s.calls[id]);
    FinishKeeps(s, id);
    if s.calls[id].generation == s.generation { assert OnChain(s, id); }
  }

  lemma GrantKeeps(t: Embed, g: ExchangeReply, expiresAt: int)
    requires Exchanged(t) && !t.invalidContext && g.Granted?
    requires t.context.Some? ==> GrantedBy(t.context.value, g.accountId, g.connections)
    ensures Inv(RefreshSegment(Authorize(t, g, expiresAt), Some(t.generation)))
  {
    AuthorizeKeeps(t, g, expiresAt);
    hide Inv, Authorize, GrantedBy;
    RefreshSegmentKeeps(Authorize(t, g, expiresAt), Some(t.generation));
  }

  lemma GrantedSegmentKeeps(t: Embed, g: ExchangeReply)
    requires Exchanged(t) && g.Granted?
    ensures Inv(GrantedSegment(t, g))
  {
    hide Inv, OnChain, Authorize, RefreshSegment, StopAs, GrantedBy;
    StopKeeps(t, Denied);
    StopKeeps(t, Expired);
    if !t.invalidContext && (t.context.Some? ==> GrantedBy(t.context.value, g.accountId, g.connections)) {
      GrantKeeps(t, g, Min(g.expiresAt, t.now + 300000));
    }
  }

  lemma ExchangedSegmentKeeps(s: Embed, id: CallId, exchange: ExchangeReply)
    requires Inv(s) && id in s.calls && s.calls[id].job.Exchanging?
    ensures Inv(ExchangedSegment(s, id, exchange))
  {
    ExchangeIsOver(s, id);
    var t := Finish(s, id);
    if s.calls[id].generation == s.generation {
      hide Inv, Fail, StopAs, GrantedSegment, SetPoll, OnChain;
      match exchange
      case Pending => SetPollKeeps(t, Poll(s.calls[id].job.request, s.generation));
      case ExchangeFailed(refusal) =>
        SetPollKeeps(t, Poll(s.calls[id].job.request, s.generation));
        FailKeeps(t, refusal);
      case Granted(_, _, _, _) => GrantedSegmentKeeps(t, exchange);
    }
  }

  lemma ScheduledSegmentKeeps(s: Embed, id: CallId)
    requires Inv(s) && id in s.calls && s.calls[id].job == Scheduling
    ensures Inv(ScheduledSegment(s, id))
  {
    assert CallOk(s, s.calls[id]);
    FinishKeeps(s, id);
    if s.calls[id].generation == s.generation && s.status == Authorized {
      assert OnChain(s, id);
      hide Inv;
      SetPollKeeps(Finish(s, id), HealthPoll(s.generation));
    }
  }

  /** The chain goes on in the same place, whether or not the session was stopped meanwhile. */
  lemma RefreshOverKeeps(s: Embed, c: Call, id: CallId)
    requires Inv(s) && id in s.calls && s.calls[id] == c && c.job.Refreshing?
    ensures Inv(RefreshOver(s, c, id))
  {
    assert CallOk(s, c);
    if c.job.chain.None? {
      FinishKeeps(s, id);
    } else {
      var s' := RefreshOver(s, c, id);
      forall x <- s'.calls ensures CallOk(s', s'.calls[x]) { if x != id { assert CallOk(s, s.calls[x]); } }
      forall t <- s'.timers ensures TimerOk(s', t) { assert TimerOk(s, t); }
      forall x ensures OnChain(s', x) <==> OnChain(s, x) {}
      forall x ensures PairPending(s', x) <==> PairPending(s, x) {}
    }
  }

  /** A new selection disowns the pairing under way. */
  lemma ReselectKeeps(s: Embed, s': Embed)
    requires Inv(s) && s.status == Authorized
    requires s' == s.(selection := s.selection + 1, selected := s'.selected, action := None, health := s'.health,
      busy := false, context := s'.context, invalidContext := s'.invalidContext)
    requires StatusOk(s')
    ensures Inv(s')
    ensures forall x :: OnChain(s', x) <==> OnChain(s, x)
  {
    forall x <- s'.calls ensures CallOk(s', s'.calls[x]) { assert CallOk(s, s.calls[x]); }
    forall t <- s'.timers ensures TimerOk(s', t) { assert TimerOk(s, t); }
    forall x ensures OnChain(s', x) <==> OnChain(s, x) {}
    forall x ensures !PairPending(s', x) { assert x in s.calls ==> CallOk(s, s.calls[x]); }
  }

  lemma ApplyHealthKeeps(s: Embed, health: Health)
    requires Inv(s) && s.status == Authorized && health.integrationId == s.selected
    ensures Inv(ApplyHealth(s, health))
  {
    var s' := ApplyHealth(s, health);
    if !health.pairAllowed || health.connected {
      ReselectKeeps(s, s');
    } else {
      forall x <- s'.calls ensures CallOk(s', s'.calls[x]) { assert CallOk(s, s.calls[x]); }
      forall t <- s'.timers ensures TimerOk(s', t) { assert TimerOk(s, t); }
      forall x ensures OnChain(s', x) <==> OnChain(s, x) {}
      forall x ensures PairPending(s', x) <==> PairPending(s, x) {}
    }
  }

  lemma RefreshedSegmentKeeps(s: Embed, id: CallId, report: HealthReply)
    requires Inv(s) && id in s.calls && s.calls[id].job.Refreshing?
    ensures Inv(RefreshedSegment(s, id, report))
  {
    var c := s.calls[id];
    assert CallOk(s, c);
    CheckActiveKeeps(s);
    FailKeeps(s, if report.HealthFailed? then report.refusal else None);
    FailKeeps(s, None);
    if Fresh(s, id) && report.Healthy? && s.status == Authorized && report.health.integrationId == c.job.id {
      ApplyHealthKeeps(s, report.health);
    }
    hide Inv, CheckActive;
    RefreshOverKeeps(if Fresh(s, id) then RefreshResult(s, c.job.id, report) else s, c, id);
  }

  lemma PairSegmentKeeps(s: Embed)
    requires Inv(s)
    ensures Inv(PairSegment(s))
  {
    CheckActiveKeeps(s);
    var (t, active) := CheckActive(s);
    var chosen := FindConnection(t.connections, t.selected);
    if active && !t.busy && chosen.Some? && chosen.value.canPair {
      var s' := PairSegment(s);
      forall x <- s'.calls ensures CallOk(s', s'.calls[x]) { if x != s.nextId { assert CallOk(s, s.calls[x]); } }
      forall x <- s'.timers ensures TimerOk(s', x) { assert TimerOk(s, x); }
      forall x ensures OnChain(s', x) <==> OnChain(s, x) {}
      forall x ensures PairPending(s', x) <==> x == s.nextId { assert !PairPending(s, x); }
      assert PairPending(s', s.nextId);
    }
  }

  lemma PairedSegmentKeeps(s: Embed, id: CallId, offer: PairReply)
    requires Inv(s) && id in s.calls && s.calls[id].job.Pairing?
    ensures Inv(PairedSegment(s, id, offer))
  {
    assert CallOk(s, s.calls[id]);
    if Fresh(s, id) {
      assert PairPending(s, id);
      PairStopKeeps(s, id);
      PairEndKeeps(s, id, s.action);
      PairEndKeeps(s, id, None);
      if offer.Offered? { PairEndKeeps(s, id, Some(offer.action)); }
    } else {
      FinishKeeps(s, id);
    }
  }

  /** Stopping does not care whether the pairing has already left the table. */
  lemma PairStopKeeps(s: Embed, id: CallId)
    requires Inv(s)
    ensures forall status | status != Authorized && status != AwaitingApproval :: Inv(StopAs(Finish(s, id), status))
  {
    forall status | status != Authorized && status != AwaitingApproval ensures Inv(StopAs(Finish(s, id), status)) {
      StopKeeps(s, status);
      var t := StopAs(s, status);
      assert !PairPending(t, id);
      FinishKeeps(t, id);
      assert Finish(t, id) == StopAs(Finish(s, id), status);
    }
  }

  lemma ContextSegmentKeeps(s: Embed, context: Option<Context>)
    requires Inv(s)
    ensures Inv(ContextSegment(s, context))
  {
    var s' := ContextSegment(s, context);
    if context.Some? && context == s.context {
      SameCallsKeep(s, s');
    } else if s.status == Authorized {
      if context.None? || !GrantedBy(context.value, s.accountId, s.connections) {
        StopKeeps(s, Denied);
        var u := StopAs(s, Denied);
        ContextStopKeeps(s, context);
      } else {
        ReselectKeeps(s, s');
      }
    } else {
      IdleContextKeeps(s, s');
    }
  }

  lemma SameCallsKeep(s: Embed, s': Embed)
    requires Inv(s) && s' == s.(invalidContext := false)
    ensures Inv(s')
  {
    forall x <- s'.calls ensures CallOk(s', s'.calls[x]) { assert CallOk(s, s.calls[x]); }
    forall t <- s'.timers ensures TimerOk(s', t) { assert TimerOk(s, t); }
    forall x ensures OnChain(s', x) <==> OnChain(s, x) {}
    forall x ensures PairPending(s', x) <==> PairPending(s, x) {}
  }

  lemma IdleContextKeeps(s: Embed, s': Embed)
    requires Inv(s) && s.status != Authorized
    requires s' == s.(invalidContext := s'.invalidContext, context := s'.context, selection := s.selection + 1,
      action := None, health := None, busy := false)
    requires s'.invalidContext ==> s'.context.None?
    ensures Inv(s')
  {
    forall x <- s'.calls ensures CallOk(s', s'.calls[x]) { assert CallOk(s, s.calls[x]); }
    forall t <- s'.timers ensures TimerOk(s', t) { assert TimerOk(s, t); }
    forall x ensures OnChain(s', x) <==> OnChain(s, x) {}
    forall x ensures !PairPending(s', x) { assert x in s.calls ==> CallOk(s, s.calls[x]); }
  }

  lemma ContextStopKeeps(s: Embed, context: Option<Context>)
    requires Inv(s)
    ensures Inv(StopAs(s.(invalidContext := context.None?, context := context, selection := s.selection + 1,
                          action := None, health := None, busy := false), Denied))
  {
    StopKeeps(s, Denied);
    IdleContextKeeps(StopAs(s, Denied),
      StopAs(s, Denied).(invalidContext := context.None?, context := context, selection := s.selection + 2));
  }

  lemma SelectingKeeps(s: Embed, id: string)
    requires Inv(s) && s.status == Authorized && FindConnection(s.connections, id).Some?
    requires s.context.Some? ==> FindConnection(s.connections, id).value.inboxId == s.context.value.inboxId
    ensures Inv(Selecting(s, id))
  {
    var c := FindConnection(s.connections, id).value;
    assert c in s.connections && c.integrationId == id;
    ReselectKeeps(s, Selecting(s, id));
  }

  lemma SelectSegmentKeeps(s: Embed, id: string)
    requires Inv(s)
    ensures Inv(SelectSegment(s, id))
  {
    CheckActiveKeeps(s);
    hide Inv, CheckActive, RefreshSegment, Selecting, OnChain;
    var (t, active) := CheckActive(s);
    var chosen := FindConnection(t.connections, id);
    if active && chosen.Some? && (t.context.Some? ==> chosen.value.inboxId == t.context.value.inboxId) {
      SelectingKeeps(t, id);
      RefreshSegmentKeeps(Selecting(t, id), None);
    }
  }

  function Fired(s: Embed, timer: TimerId): Embed {
    s.(timers := s.timers - {timer})
  }

  /** A poll that fires leaves the chain to its continuation. */
  lemma FiredPollKeeps(s: Embed, timer: TimerId)
    requires Inv(s) && timer in s.timers && s.timers[timer] != Expiry
    ensures Inv(Fired(s, timer)) && forall x :: !OnChain(Fired(s, timer), x)
    ensures forall x <- Fired(s, timer).timers :: Fired(s, timer).timers[x] == Expiry
  {
    assert TimerOk(s, timer);
    var t := Fired(s, timer);
    forall x <- t.calls ensures CallOk(t, t.calls[x]) { assert CallOk(s, s.calls[x]); }
    forall x <- t.timers ensures TimerOk(t, x) && t.timers[x] == Expiry { assert TimerOk(s, x); }
    forall x ensures !OnChain(t, x) { assert OnChain(t, x) ==> OnChain(s, x); }
    forall x ensures PairPending(t, x) <==> PairPending(s, x) {}
  }

  lemma FiredExpiryKeeps(s: Embed, timer: TimerId)
    requires Inv(s) && timer in s.timers && s.timers[timer] == Expiry
    ensures Inv(FireSegment(s, timer))
  {
    StopKeeps(s, Expired);
    StopClearsTimers(s, Expired);
    assert FireSegment(s, timer) == StopAs(s, Expired);
  }

  lemma FireSegmentKeeps(s: Embed, timer: TimerId)
    requires Inv(s) && timer in s.timers
    ensures Inv(FireSegment(s, timer))
  {
    assert TimerOk(s, timer);
    if s.timers[timer] == Expiry {
      FiredExpiryKeeps(s, timer);
    } else {
      FiredPollKeeps(s, timer);
      hide Inv, OnChain, RefreshSegment;
      var t := Fired(s, timer);
      match s.timers[timer]
      case Poll(request, generation) =>
        if s.verifier.Some? { LaunchKeeps(t, Call(Exchanging(request), t.generation, t.selection)); }
      case HealthPoll(generation) => RefreshSegmentKeeps(t, Some(generation));
    }
  }

  // ----- every step, every run -----

  /** The values a caller may end a session with. */
  predicate EndStatus(status: Status) {
    status != Authorized && status != AwaitingApproval
  }

  lemma TimePasses(s: Embed, e: Event)
    requires Inv(s) && (e == ClearAction || e.Advance?)
    ensures Inv(Step(s, e))
  {
    var s' := Step(s, e);
    forall x <- s'.calls ensures CallOk(s', s'.calls[x]) { assert CallOk(s, s.calls[x]); }
    forall t <- s'.timers ensures TimerOk(s', t) { assert TimerOk(s, t); }
    forall x ensures OnChain(s', x) <==> OnChain(s, x) {}
    forall x ensures PairPending(s', x) <==> PairPending(s, x) {}
  }

  lemma ProperStepKeeps(s: Embed, e: Event)
    requires Inv(s) && (e.Stop? ==> EndStatus(e.status))
    ensures Inv(Step(s, e))
  {
    hide Inv, StopAs, BeginSegment, ContextSegment, SelectSegment, RefreshSegment, PairSegment, FireSegment,
         DigestedSegment, StartedSegment, ExchangedSegment, RefreshedSegment, PairedSegment, ScheduledSegment;
    match e
    case Stop(status) => StopKeeps(s, status);
    case Begin(verifier) => BeginSegmentKeeps(s, verifier);
    case SetContext(context) => ContextSegmentKeeps(s, context);
    case Select(id) => SelectSegmentKeeps(s, id);
    case ClearAction => TimePasses(s, e);
    case Refresh => RefreshSegmentKeeps(s, None);
    case Pair => PairSegmentKeeps(s);
    case Fire(timer) => if timer in s.timers { FireSegmentKeeps(s, timer); }
    case Advance(to) => TimePasses(s, e);
    case Digested(id, ok) => if id in s.calls && s.calls[id].job == Digesting { DigestedSegmentKeeps(s, id, ok); }
    case Started(id, start) => if id in s.calls && s.calls[id].job == Beginning { StartedSegmentKeeps(s, id, start); }
    case Exchanged(id, exchange) =>
      if id in s.calls && s.calls[id].job.Exchanging? { ExchangedSegmentKeeps(s, id, exchange); }
    case Refreshed(id, report) =>
      if id in s.calls && s.calls[id].job.Refreshing? { RefreshedSegmentKeeps(s, id, report); }
    case Paired(id, offer) => if id in s.calls && s.calls[id].job.Pairing? { PairedSegmentKeeps(s, id, offer); }
    case Scheduled(id) => if id in s.calls && s.calls[id].job == Scheduling { ScheduledSegmentKeeps(s, id); }
  }

  /** `stop` takes any status; it keeps the session sound if and only if the caller does not claim a running one. */
  lemma StopIsSoundIff(s: Embed, status: Status)
    requires Inv(s)
    ensures Inv(StopAs(s, status)) <==> EndStatus(status)
  {
    StopClearsTimers(s, status);
    if EndStatus(status) { StopKeeps(s, status); }
  }

  /** The call an answer is for. */
  function CallOf(e: Event): Option<CallId> {
    match e
    case Digested(id, _) => Some(id)
    case Started(id, _) => Some(id)
    case Exchanged(id, _) => Some(id)
    case Refreshed(id, _) => Some(id)
    case Paired(id, _) => Some(id)
    case Scheduled(id) => Some(id)
    case _ => None
  }

  // ----- statuses a caller makes up -----

  /** Someone has claimed a running session with `stop`: there is none, and nothing is under way for it. */
  ghost predicate Hollow(s: Embed) {
    !EndStatus(s.status) && s.connections == [] && Inv(s.(status := Idle))
  }

  /** What every run keeps. */
  ghost predicate Kept(s: Embed) {
    Inv(s) || Hollow(s)
  }

  /**
   A made-up status is gone: with a new start, with another `stop`, or with a new context for a made-up authorization.
   */
  predicate Recovers(s: Embed, e: Event) {
    match e
    case Stop(status) => EndStatus(status)
    case Begin(_) => true
    case SetContext(context) => s.status == Authorized && (context.None? || context != s.context)
    case _ => false
  }

  lemma HollowIsIdle(s: Embed)
    requires Hollow(s)
    ensures !Inv(s) && s.token == None && s.health == None && s.action == None && !s.busy && s.timers == map[]
    ensures s.verifier == None
    ensures forall id <- s.calls :: s.calls[id].generation < s.generation
  {
    var r := s.(status := Idle);
    forall t ensures t !in s.timers { assert t in r.timers ==> TimerOk(r, t); }
    forall id <- s.calls ensures s.calls[id].generation < s.generation { assert CallOk(r, r.calls[id]); }
  }

  /** In a hollow state nothing but a recovery looks at the status. */
  lemma HollowCommutes(s: Embed, e: Event)
    requires Hollow(s) && !Recovers(s, e) && !e.Stop?
    ensures Step(s, e).(status := Idle) == Step(s.(status := Idle), e)
    ensures Step(s, e).status == s.status && Step(s, e).connections == s.connections
  {
    HollowIsIdle(s);
    hide Inv, StopAs, Fail, FindConnection, FindInbox, Launch;
    if CallOf(e).Some? { HollowAnswers(s, e); }
  }

  lemma HollowAnswers(s: Embed, e: Event)
    requires CallOf(e).Some? && forall id <- s.calls :: s.calls[id].generation < s.generation
    ensures Step(s, e).(status := Idle) == Step(s.(status := Idle), e)
    ensures Step(s, e).status == s.status && Step(s, e).connections == s.connections
  {
    var id := CallOf(e).value;
    if id in s.calls {
      OlderAnswerIsDropped(s, e, id);
      OlderAnswerIsDropped(s.(status := Idle), e, id);
    }
    hide StopAs, Fail, RefreshResult, GrantedSegment, CheckActive, DigestedSegment, StartedSegment, ExchangedSegment,
         RefreshedSegment, PairedSegment, ScheduledSegment;
  }

  predicate Awaits(job: Job, e: Event) {
    match e
    case Digested(_, _) => job == Digesting
    case Started(_, _) => job == Beginning
    case Exchanged(_, _) => job.Exchanging?
    case Refreshed(_, _) => job.Refreshing?
    case Paired(_, _) => job.Pairing?
    case Scheduled(_) => job == Scheduling
    case _ => false
  }

  lemma OlderAnswerIsDropped(s: Embed, e: Event, id: CallId)
    requires CallOf(e) == Some(id) && id in s.calls && s.calls[id].generation < s.generation
    ensures Step(s, e) ==
      if !Awaits(s.calls[id].job, e) then s
      else if e.Refreshed? then RefreshOver(s, s.calls[id], id)
      else Finish(s, id)
  {
    hide StopAs, Fail, RefreshResult, GrantedSegment, CheckActive;
  }

  lemma StatusIsOverwritten(s: Embed, status: Status, verifier: nat)
    ensures StopAs(s, status).status == status && StopAs(s, status) == StopAs(s.(status := Idle), status)
    ensures StopAs(s, status).(status := Idle) == StopAs(s, Idle) && StopAs(s, status).connections == []
    ensures BeginSegment(s, verifier) == BeginSegment(s.(status := Idle), verifier)
  {
  }

  lemma DeniedContext(s: Embed, context: Option<Context>)
    requires Hollow(s) && Recovers(s, SetContext(context))
    ensures Step(s, SetContext(context)) == StopAs(Step(s.(status := Idle), SetContext(context)), Denied)
  {
  }

  lemma HollowStep(s: Embed, e: Event)
    requires Hollow(s)
    ensures if Recovers(s, e) then Inv(Step(s, e)) else Hollow(Step(s, e))
  {
    var r := s.(status := Idle);
    hide Inv, StopAs, BeginSegment, ContextSegment;
    if e.Stop? {
      StatusIsOverwritten(s, e.status, 0);
      StatusIsOverwritten(s, Idle, 0);
      StopKeeps(r, if EndStatus(e.status) then e.status else Idle);
    } else if e.Begin? {
      StatusIsOverwritten(s, Idle, e.verifier);
      BeginSegmentKeeps(r, e.verifier);
    } else if Recovers(s, e) {
      DeniedContext(s, e.context);
      ContextSegmentKeeps(r, e.context);
      StopKeeps(ContextSegment(r, e.context), Denied);
    } else {
      HollowCommutes(s, e);
      hide Step;
      ProperStepKeeps(r, e);
    }
  }

  lemma StepKeeps(s: Embed, e: Event)
    requires Kept(s)
    ensures Kept(Step(s, e))
    ensures Hollow(Step(s, e)) <==> (e.Stop? && !EndStatus(e.status)) || (Hollow(s) && !Recovers(s, e))
  {
    if Hollow(s) {
      HollowStep(s, e);
    } else if e.Stop? && !EndStatus(e.status) {
      StatusIsOverwritten(s, e.status, 0);
      StopKeeps(s, Idle);
    } else {
      ProperStepKeeps(s, e);
    }
    hide Inv, Step;
    if Hollow(Step(s, e)) { HollowIsIdle(Step(s, e)); }
    if Hollow(s) { HollowIsIdle(s); }
  }

  /** The last `stop` with a status of a running session still stands. */
  ghost predicate ClaimStands(events: seq<Event>) {
    if events == [] then false
    else
      var before, e := events[..|events| - 1], events[|events| - 1];
      (e.Stop? && !EndStatus(e.status)) || (ClaimStands(before) && !Recovers(After(before), e))
  }

  /** Every run keeps the invariant, and is hollow exactly while such a claim stands. */
  lemma {:induction false} EveryRunKeeps(events: seq<Event>)
    ensures Kept(After(events)) && (Hollow(After(events)) <==> ClaimStands(events))
  {
    hide Step, Recovers, Inv;
    if events == [] {
      NothingYet();
    } else {
      EveryRunKeeps(events[..|events| - 1]);
      StepKeeps(After(events[..|events| - 1]), events[|events| - 1]);
    }
  }

  lemma NothingYet()
    ensures Inv(INITIAL) && !Hollow(INITIAL)
  {
  }

  // ----- what that means to the user -----

  /**
   Authorized exactly while a token is held, unless a caller's own claim stands; a token is held only by an authorized
   session, and only inside the granted inbox of the current context.
   */
  lemma AuthorizedMeansToken(events: seq<Event>)
    ensures var s := After(events); s.token.Some? ==> s.status == Authorized
    ensures var s := After(events); (s.status == Authorized ==> s.token.Some?) <==>
      !(ClaimStands(events) && s.status == Authorized)
    ensures var s := After(events); s.token.Some? && s.context.Some? ==> InGrantedInbox(s)
    ensures var s := After(events); s.token.Some? ==> !s.invalidContext && s.verifier == None
  {
    EveryRunKeeps(events);
    var s := After(events);
    if Hollow(s) { HollowIsIdle(s); }
    hide After, Step, ClaimStands, CallsOk, TimersOk, ChainOk, BusyOk;
  }

  /** Busy exactly while a pairing of the current generation and selection is outstanding, and never with two. */
  lemma BusyMeansPairing(events: seq<Event>)
    ensures var s := After(events); s.busy <==> exists id :: PairPending(s, id)
    ensures var s := After(events); forall a, b | PairPending(s, a) && PairPending(s, b) :: a == b
  {
    EveryRunKeeps(events);
    var s := After(events);
    if Hollow(s) { HollowIsIdle(s); }
    hide After, Step, ClaimStands, CallsOk, TimersOk, ChainOk;
  }

  /** Health and action on display belong to the selected connection of an authorized session. */
  lemma DisplayBelongsToSelection(events: seq<Event>)
    ensures var s := After(events); s.health.Some? ==> s.token.Some? && s.health.value.integrationId == s.selected
    ensures var s := After(events); s.action.Some? ==> s.token.Some?
  {
    EveryRunKeeps(events);
    var s := After(events);
    if Hollow(s) { HollowIsIdle(s); }
    hide After, Step, ClaimStands, CallsOk, TimersOk, ChainOk, BusyOk;
  }

  /**
   A waiting or authorized session has its expiry armed unless it is only claimed; no expiry of an earlier one can still
   fire.
   */
  lemma ExpiryBelongsToSession(events: seq<Event>, t: TimerId)
    ensures var s := After(events);
      (exists x <- s.timers :: s.timers[x] == Expiry) <==> !EndStatus(s.status) && !ClaimStands(events)
    ensures var s := After(events); t in s.timers && s.timers[t] == Expiry ==> s.expiry == Some(t)
  {
    EveryRunKeeps(events);
    var s := After(events);
    if Hollow(s) {
      HollowIsIdle(s);
    } else {
      forall x <- s.timers ensures TimerOk(s, x) {}
      assert !EndStatus(s.status) ==> s.expiry.value in s.timers && s.timers[s.expiry.value] == Expiry;
    }
    hide After, Step, ClaimStands, Inv, Hollow;
  }

  /** An answer of an older generation, or of an older selection where that counts, changes nothing but its own call. */
  lemma OlderAnswersChangeNothing(s: Embed, e: Event)
    requires CallOf(e).Some? && CallOf(e).value in s.calls
    requires var c := s.calls[CallOf(e).value];
      c.generation != s.generation || ((e.Refreshed? || e.Paired?) && c.selection != s.selection)
    ensures Step(s, e) == s.(calls := Step(s, e).calls)
    ensures forall id <- s.calls | id != CallOf(e).value ::
      id in Step(s, e).calls && Step(s, e).calls[id] == s.calls[id]
  {
  }
}
