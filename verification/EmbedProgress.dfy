/**
 The embedded session never goes silent and never splits: a session is under way exactly while one thread of control
 of its generation is alive, be it a request, a continuation or an armed poll.
 */
module EmbedProgress {
  import opened Wrappers
  import opened EmbedProtocol
  import opened EmbedSafety

  /** A start has been made and neither refused nor stopped: its verifier or its token is held. */
  predicate Underway(s: Embed) {
    s.verifier.Some? || s.token.Some?
  }

  ghost predicate PollArmed(s: Embed, t: TimerId) {
    t in s.timers && s.timers[t] != Expiry
  }

  /** A request or continuation of the running generation, or an armed poll, that will go on. */
  ghost predicate HasThread(s: Embed) {
    (exists id :: OnChain(s, id)) || (exists t :: PollArmed(s, t))
  }

  ghost predicate Threaded(s: Embed) {
    && (Underway(s) <==> HasThread(s))
    && (s.status == AwaitingApproval && s.timers != map[] ==> s.verifier.Some?)
  }

  /** Stopping ends the thread with the session. */
  lemma StopEnds(s: Embed, status: Status)
    requires Inv(s) && EndStatus(status)
    ensures Threaded(StopAs(s, status))
  {
    StopKeeps(s, status);
    StopClearsTimers(s, status);
    hide Inv;
  }

  /** Steps that leave the thread alone. */
  ghost predicate SameThread(s: Embed, s': Embed) {
    && s'.generation == s.generation && s'.timers == s.timers && s'.verifier == s.verifier && s'.token == s.token
    && s'.status == s.status && forall x :: OnChain(s', x) <==> OnChain(s, x)
  }

  lemma SameThreadKeeps(s: Embed, s': Embed)
    requires Threaded(s) && SameThread(s, s')
    ensures Threaded(s')
  {
    assert forall t :: PollArmed(s', t) <==> PollArmed(s, t);
  }

  lemma FinishThread(s: Embed, id: CallId)
    requires !OnChain(s, id)
    ensures SameThread(s, Finish(s, id))
  {
  }

  // ----- segments -----

  lemma ActiveThread(s: Embed)
    requires Inv(s) && Threaded(s)
    ensures Inv(CheckActive(s).0) && Threaded(CheckActive(s).0)
    ensures CheckActive(s).1 ==> CheckActive(s).0 == s && s.token.Some?
    ensures CheckActive(s).0 == s || CheckActive(s).0 == StopAs(s, Expired)
  {
    CheckActiveKeeps(s);
    StopEnds(s, Expired);
    hide Inv, Threaded, StopAs;
  }

  /** A call that is not on the chain does not matter. */
  lemma LaunchBeside(s: Embed, s': Embed, job: Job)
    requires !Chained(job) && s'.calls == s.calls[s.nextId := Call(job, s.generation, s.selection)]
    requires s.nextId !in s.calls
    requires s'.generation == s.generation && s'.timers == s.timers && s'.verifier == s.verifier
    requires s'.token == s.token && s'.status == s.status
    ensures SameThread(s, s')
  {
  }

  lemma FreshCall(s: Embed)
    requires Inv(s)
    ensures s.nextId !in s.calls
  {
  }

  lemma RefreshThread(s: Embed)
    requires Inv(s) && Threaded(s)
    ensures Threaded(RefreshSegment(s, None))
  {
    ActiveThread(s);
    var (t, active) := CheckActive(s);
    FreshCall(t);
    hide Inv, Threaded, CheckActive;
    if active && t.selected != "" {
      LaunchBeside(t, RefreshSegment(s, None), Refreshing(t.selected, None));
      SameThreadKeeps(t, RefreshSegment(s, None));
    }
  }

  /** A refresh within the chain takes over the thread, unless the session turns out to be over. */
  lemma ChainThread(s: Embed)
    requires Inv(s) && s.status == Authorized && (forall x :: !OnChain(s, x)) && forall t <- s.timers ::
      s.timers[t] == Expiry
    ensures Threaded(RefreshSegment(s, Some(s.generation)))
  {
    var s' := RefreshSegment(s, Some(s.generation));
    RefreshSegmentKeeps(s, Some(s.generation));
    StopKeeps(s, Expired);
    StopClearsTimers(s, Expired);
    FreshCall(s);
    assert s.token.Some?;
    hide Inv;
    if s.expiresAt <= s.now {
      forall x ensures !OnChain(s', x) { assert !OnChain(StopAs(s, Expired), x); }
    } else {
      assert OnChain(s', s.nextId);
    }
  }

  lemma BeginThread(s: Embed, verifier: nat)
    ensures Threaded(BeginSegment(s, verifier))
  {
    var s' := BeginSegment(s, verifier);
    assert OnChain(s', s.nextId);
    hide Inv;
  }

  /** Whoever started holds the verifier. */
  lemma StarterHolds(s: Embed, id: CallId)
    requires Inv(s) && Threaded(s) && OnChain(s, id)
    ensures s.status == Starting || s.status == AwaitingApproval ==> s.verifier.Some?
    ensures Underway(s)
  {
    assert HasThread(s);
  }

  lemma DigestedThread(s: Embed, id: CallId, ok: bool)
    requires Inv(s) && Threaded(s) && id in s.calls && s.calls[id].job == Digesting
    ensures Threaded(DigestedSegment(s, id, ok))
  {
    FinishKeeps(s, id);
    if s.calls[id].generation != s.generation {
      FinishThread(s, id);
      hide Inv, Threaded;
      SameThreadKeeps(s, Finish(s, id));
    } else if ok {
      var s' := DigestedSegment(s, id, ok);
      forall x ensures OnChain(s', x) <==> OnChain(s, x) {}
      hide Inv, Threaded;
      SameThreadKeeps(s, s');
    } else {
      hide Inv, Threaded;
      StopEnds(Finish(s, id), Unavailable);
    }
  }

  lemma FailThread(s: Embed, refusal: Refusal)
    requires Inv(s)
    ensures Threaded(Fail(s, refusal))
  {
    hide Inv, Threaded;
    StopEnds(s, Denied);
    StopEnds(s, Unavailable);
  }

  lemma StartedThread(s: Embed, id: CallId, start: StartReply)
    requires Inv(s) && Threaded(s) && id in s.calls && s.calls[id].job == Beginning
    ensures Threaded(StartedSegment(s, id, start))
  {
    assert CallOk(s, s.calls[id]);
    FinishKeeps(s, id);
    var s' := StartedSegment(s, id, start);
    if s.calls[id].generation != s.generation {
      FinishThread(s, id);
      hide Inv, Threaded;
      SameThreadKeeps(s, Finish(s, id));
    } else {
      StarterHolds(s, id);
      hide Inv;
      FailThread(Finish(s, id), if start.StartFailed? then start.refusal else None);
      StopEnds(Finish(s, id), Expired);
      if start.Opened? && Min(start.expiresAt, s.now + 120000) > s.now { assert PollArmed(s', s'.poll.value); }
      hide StopAs, Fail;
    }
  }

  lemma ExchangedThread(s: Embed, id: CallId, exchange: ExchangeReply)
    requires Inv(s) && Threaded(s) && id in s.calls && s.calls[id].job.Exchanging?
    ensures Threaded(ExchangedSegment(s, id, exchange))
  {
    ExchangeIsOver(s, id);
    var t := Finish(s, id);
    if s.calls[id].generation != s.generation {
      FinishThread(s, id);
      hide Inv, Threaded;
      SameThreadKeeps(s, t);
    } else {
      assert CallOk(s, s.calls[id]);
      StarterHolds(s, id);
      hide Inv, GrantedSegment, StopAs, Fail, EmbedSafety.Exchanged;
      match exchange
      case Pending => PollThread(t, s.calls[id].job.request);
      case ExchangeFailed(refusal) =>
        PollThread(t, s.calls[id].job.request);
        assert Inv(t);
        FailThread(t, refusal);
      case Granted(_, _, _, _) => GrantedThread(t, exchange);
    }
  }

  lemma PollThread(t: Embed, request: nat)
    requires t.verifier.Some?
    ensures Threaded(SetPoll(t, Poll(request, t.generation)))
  {
    assert PollArmed(SetPoll(t, Poll(request, t.generation)), t.nextId);
    hide Inv;
  }

  lemma GrantedThread(t: Embed, g: ExchangeReply)
    requires EmbedSafety.Exchanged(t) && g.Granted?
    ensures Threaded(GrantedSegment(t, g))
  {
    StopEnds(t, Denied);
    StopEnds(t, Expired);
    var expiresAt := Min(g.expiresAt, t.now + 300000);
    if !t.invalidContext && (t.context.Some? ==> GrantedBy(t.context.value, g.accountId, g.connections)) {
      AuthorizeKeeps(t, g, expiresAt);
      hide Inv, Threaded, Authorize, GrantedBy, StopAs, RefreshSegment;
      ChainThread(Authorize(t, g, expiresAt));
    } else {
      hide Inv, Threaded, Authorize, GrantedBy, StopAs, RefreshSegment;
    }
  }

  lemma ScheduledThread(s: Embed, id: CallId)
    requires Inv(s) && Threaded(s) && id in s.calls && s.calls[id].job == Scheduling
    ensures Threaded(ScheduledSegment(s, id))
  {
    assert CallOk(s, s.calls[id]);
    var s' := ScheduledSegment(s, id);
    if s.calls[id].generation != s.generation {
      FinishThread(s, id);
      hide Inv, Threaded;
      SameThreadKeeps(s, s');
    } else {
      assert s.token.Some?;
      assert PollArmed(s', s.nextId);
      hide Inv;
    }
  }

  lemma ReselectThread(s: Embed, health: Health)
    ensures SameThread(s, ApplyHealth(s, health))
  {
  }

  lemma ResultThread(s: Embed, id: string, report: HealthReply)
    requires Inv(s) && Threaded(s) && s.status == Authorized
    ensures Threaded(RefreshResult(s, id, report))
    ensures SameThread(s, RefreshResult(s, id, report)) || !Underway(RefreshResult(s, id, report))
    ensures RefreshResult(s, id, report).calls == s.calls
  {
    ActiveThread(s);
    FailThread(s, None);
    if report.HealthFailed? { FailThread(s, report.refusal); }
    if report.Healthy? { ReselectThread(s, report.health); }
    hide Inv, Threaded, ApplyHealth;
    if report.Healthy? && SameThread(s, ApplyHealth(s, report.health)) {
      SameThreadKeeps(s, ApplyHealth(s, report.health));
    }
  }

  /** When a refresh is over, its place on the chain is kept by the continuation. */
  lemma OverThread(u: Embed, c: Call, id: CallId)
    requires id in u.calls && u.calls[id] == c && c.job.Refreshing?
    requires (c.job.chain.Some? ==> c.job.chain.value == c.generation)
    ensures SameThread(u, RefreshOver(u, c, id))
  {
  }

  lemma RefreshedThread(s: Embed, id: CallId, report: HealthReply)
    requires Inv(s) && Threaded(s) && id in s.calls && s.calls[id].job.Refreshing?
    ensures Threaded(RefreshedSegment(s, id, report))
  {
    var c := s.calls[id];
    assert CallOk(s, c);
    if Fresh(s, id) { ResultThread(s, c.job.id, report); }
    var u := if Fresh(s, id) then RefreshResult(s, c.job.id, report) else s;
    hide Inv, Threaded, RefreshResult, SameThread, RefreshOver;
    OverThread(u, c, id);
    SameThreadKeeps(u, RefreshOver(u, c, id));
  }

  lemma PairThread(s: Embed)
    requires Inv(s) && Threaded(s)
    ensures Threaded(PairSegment(s))
  {
    ActiveThread(s);
    FreshCall(s);
    var t := CheckActive(s).0;
    if PairSegment(s) != t {
      LaunchBeside(s, PairSegment(s), Pairing(s.selected));
      SameThreadKeeps(s, PairSegment(s));
    }
    hide Inv, Threaded, CheckActive;
  }

  lemma PairedThread(s: Embed, id: CallId, offer: PairReply)
    requires Inv(s) && Threaded(s) && id in s.calls && s.calls[id].job.Pairing?
    ensures Threaded(PairedSegment(s, id, offer))
  {
    var s' := PairedSegment(s, id, offer);
    if s'.generation == s.generation {
      SameThreadKeeps(s, s');
    } else {
      PairStopKeeps(s, id);
      StopClearsTimers(Finish(s, id), Expired);
      forall x ensures !OnChain(s', x) { if x in s.calls { assert CallOk(s, s.calls[x]); } }
      hide Inv;
    }
  }

  lemma ContextThread(s: Embed, context: Option<Context>)
    requires Inv(s) && Threaded(s)
    ensures Threaded(ContextSegment(s, context))
  {
    var s' := ContextSegment(s, context);
    if s'.generation == s.generation {
      forall x ensures OnChain(s', x) <==> OnChain(s, x) {}
      SameThreadKeeps(s, s');
    } else {
      StopKeeps(s, Denied);
      StopClearsTimers(s, Denied);
      forall x
        ensures !OnChain(s', x)
      {
        assert !OnChain(StopAs(s, Denied), x);
        if x in s.calls { assert CallOk(s, s.calls[x]); }
      }
      hide Inv;
    }
  }

  lemma SelectThread(s: Embed, id: string)
    requires Inv(s) && Threaded(s)
    ensures Threaded(SelectSegment(s, id))
  {
    ActiveThread(s);
    var (t, active) := CheckActive(s);
    var chosen := FindConnection(t.connections, id);
    if active && chosen.Some? && (t.context.Some? ==> chosen.value.inboxId == t.context.value.inboxId) {
      SelectingKeeps(t, id);
      assert SameThread(t, Selecting(t, id));
      hide Inv, Threaded, Selecting, CheckActive, RefreshSegment;
      SameThreadKeeps(t, Selecting(t, id));
      RefreshThread(Selecting(t, id));
    } else {
      hide Inv, Threaded, Selecting, CheckActive, RefreshSegment;
    }
  }

  lemma FireThread(s: Embed, timer: TimerId)
    requires Inv(s) && Threaded(s) && timer in s.timers
    ensures Threaded(FireSegment(s, timer))
  {
    assert TimerOk(s, timer);
    var t := Fired(s, timer);
    match s.timers[timer]
    case Expiry =>
      assert FireSegment(s, timer) == StopAs(s, Expired) by { FiredExpiryStops(s, timer); }
      hide Inv, Threaded, StopAs, FireSegment;
      StopEnds(s, Expired);
    case Poll(request, generation) =>
      assert PollArmed(s, timer) && s.verifier.Some?;
      assert OnChain(FireSegment(s, timer), s.nextId);
      hide Inv;
    case HealthPoll(generation) =>
      FiredPollKeeps(s, timer);
      hide Inv, Threaded, RefreshSegment;
      ChainThread(t);
  }

  lemma FiredExpiryStops(s: Embed, timer: TimerId)
    requires Inv(s) && timer in s.timers && s.timers[timer] == Expiry
    ensures FireSegment(s, timer) == StopAs(s, Expired)
  {
    StopClearsTimers(s, Expired);
    assert TimerOk(s, timer);
  }

  // ----- every step, every run -----

  lemma ProperStepThread(s: Embed, e: Event)
    requires Inv(s) && Threaded(s) && (e.Stop? ==> EndStatus(e.status))
    ensures Threaded(Step(s, e))
  {
    hide Inv, Threaded, StopAs, BeginSegment, ContextSegment, SelectSegment, RefreshSegment, PairSegment, FireSegment,
         DigestedSegment, StartedSegment, ExchangedSegment, RefreshedSegment, PairedSegment, ScheduledSegment,
         SameThread;
    match e
    case Stop(status) => StopEnds(s, status);
    case Begin(verifier) => BeginThread(s, verifier);
    case SetContext(context) => ContextThread(s, context);
    case Select(id) => SelectThread(s, id);
    case ClearAction => IdleThread(s, e);
    case Refresh => RefreshThread(s);
    case Pair => PairThread(s);
    case Fire(timer) => if timer in s.timers { FireThread(s, timer); }
    case Advance(to) => IdleThread(s, e);
    case Digested(id, ok) => if id in s.calls && s.calls[id].job == Digesting { DigestedThread(s, id, ok); }
    case Started(id, start) => if id in s.calls && s.calls[id].job == Beginning { StartedThread(s, id, start); }
    case Exchanged(id, exchange) =>
      if id in s.calls && s.calls[id].job.Exchanging? { ExchangedThread(s, id, exchange); }
    case Refreshed(id, report) => if id in s.calls && s.calls[id].job.Refreshing? { RefreshedThread(s, id, report); }
    case Paired(id, offer) => if id in s.calls && s.calls[id].job.Pairing? { PairedThread(s, id, offer); }
    case Scheduled(id) => if id in s.calls && s.calls[id].job == Scheduling { ScheduledThread(s, id); }
  }

  lemma IdleThread(s: Embed, e: Event)
    requires Threaded(s) && (e == ClearAction || e.Advance?)
    ensures Threaded(Step(s, e))
  {
    assert SameThread(s, Step(s, e));
    SameThreadKeeps(s, Step(s, e));
  }

  /** A merely claimed session has no thread, and is not under way. */
  lemma HollowIsSilent(s: Embed)
    requires Hollow(s)
    ensures Threaded(s) && !Underway(s)
  {
    HollowIsIdle(s);
    hide Inv;
  }

  lemma StepThread(s: Embed, e: Event)
    requires Kept(s) && Threaded(s)
    ensures Threaded(Step(s, e))
  {
    StepKeeps(s, e);
    hide Inv, Threaded, Hollow, Step, Recovers;
    if Hollow(Step(s, e)) {
      HollowIsSilent(Step(s, e));
    } else if Hollow(s) {
      RecoveryThread(s, e);
    } else {
      ProperStepThread(s, e);
    }
  }

  lemma RecoveryThread(s: Embed, e: Event)
    requires Hollow(s) && Recovers(s, e)
    ensures Threaded(Step(s, e))
  {
    match e
    case Begin(verifier) => BeginThread(s, verifier);
    case Stop(status) => ClearedThread(s, StopAs(s, status));
    case SetContext(context) => ClearedThread(s, ContextSegment(s, context));
    case _ =>
  }

  lemma ClearedThread(s: Embed, s': Embed)
    requires Hollow(s) && s'.generation > s.generation && s'.calls == s.calls
    requires s'.timers == Without(Without(s.timers, s.poll), s.expiry)
    requires s'.verifier == None && s'.token == None
    ensures Threaded(s')
  {
    HollowIsIdle(s);
    hide Hollow;
    assert s'.timers == map[];
    forall x ensures !OnChain(s', x) {}
  }

  lemma {:induction false} EveryRunThreads(events: seq<Event>)
    ensures Threaded(After(events))
  {
    hide Step, Kept, Threaded;
    if events == [] {
      NothingStarted();
    } else {
      EveryRunThreads(events[..|events| - 1]);
      EveryRunKeeps(events[..|events| - 1]);
      StepThread(After(events[..|events| - 1]), events[|events| - 1]);
    }
  }

  lemma NothingStarted()
    ensures Threaded(INITIAL)
  {
  }

  // ----- what that means to the user -----

  /** What goes on next for the session: a call or a timer. */
  datatype Thread = OfCall(id: CallId) | OfTimer(timer: TimerId)

  ghost predicate IsThread(s: Embed, thread: Thread) {
    match thread
    case OfCall(id) => OnChain(s, id)
    case OfTimer(timer) => PollArmed(s, timer)
  }

  /** In every run: a session is under way if and only if it has a thread, and it never has two. */
  lemma OneThreadIffUnderway(events: seq<Event>)
    ensures var s := After(events); Underway(s) <==> exists thread :: IsThread(s, thread)
    ensures var s := After(events); forall x, y | IsThread(s, x) && IsThread(s, y) :: x == y
  {
    var s := After(events);
    EveryRunThreads(events);
    EveryRunKeeps(events);
    hide After, Step;
    if Hollow(s) { HollowIsIdle(s); }
    if Inv(s) { forall t <- s.timers ensures TimerOk(s, t) {} }
    if id :| OnChain(s, id) { assert IsThread(s, OfCall(id)); }
    if t :| PollArmed(s, t) { assert IsThread(s, OfTimer(t)); }
    hide Inv;
  }

  /** A session that waits for approval or is authorized is under way, unless a caller only claims so. */
  lemma RunningMeansUnderway(events: seq<Event>)
    ensures var s := After(events);
      Underway(s) ==> s.status == Starting || s.status == AwaitingApproval || s.status == Authorized
    ensures var s := After(events); !EndStatus(s.status) ==> (Underway(s) <==> !ClaimStands(events))
  {
    var s := After(events);
    EveryRunThreads(events);
    EveryRunKeeps(events);
    hide After, Step, ClaimStands;
    if Hollow(s) { HollowIsIdle(s); }
  }
}
