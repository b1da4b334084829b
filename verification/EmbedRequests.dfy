/**
 What an embedded session asks for: which requests and continuations every event starts, which timers it arms, and
 that the authorization it polls is the one that was opened for it.
 */
module EmbedRequests {
  import opened Wrappers
  import opened EmbedProtocol
  import opened EmbedSafety
  import opened EmbedFacts

  // ----- what an event starts -----

  /** The health of `selected` is asked for, or at least its next poll scheduled. */
  function ChainJob(selected: string, generation: nat): Job {
    if selected != "" then Refreshing(selected, Some(generation)) else Scheduling
  }

  /** An answer that has not come yet: the authorization is polled again. */
  predicate AsksAgain(exchange: ExchangeReply) {
    exchange == Pending || exchange == ExchangeFailed(Some(429))
  }

  /**
   The request or continuation that an event starts, or turns its call into, for the session that goes on after it.
   */
  function Starts(s: Embed, e: Event): Option<Job> {
    match e
    case Begin(_) => Some(Digesting)
    case Select(id) => if MaySelect(s, id) && id != "" then Some(Refreshing(id, None)) else None
    case Refresh => if InUse(s) && s.selected != "" then Some(Refreshing(s.selected, None)) else None
    case Pair => if MayPair(s) then Some(Pairing(s.selected)) else None
    case Fire(timer) =>
      if timer !in s.timers then None
      else (
        match s.timers[timer]
        case Expiry => None
        case Poll(request, generation) =>
          if generation == s.generation && s.verifier.Some? then Some(Exchanging(request)) else None
        case HealthPoll(generation) => if Overdue(s) then None else Some(ChainJob(s.selected, generation)))
    case Digested(id, ok) => if Awaited(s, id, e) && ok then Some(Beginning) else None
    case Exchanged(id, exchange) =>
      if Awaited(s, id, e) && exchange.Granted? && GrantVerdict(s, exchange) == None
      then Some(ChainJob(FirstChoice(s.context, exchange.connections), s.generation)) else None
    case Refreshed(id, _) =>
      if Awaited(s, id, e) && Verdict(s, e) == None && s.calls[id].job.chain.Some? then Some(Scheduling) else None
    case _ => None
  }

  /** The timers that an event arms. */
  function Arms(s: Embed, e: Event): set<Timer> {
    match e
    case Started(id, start) =>
      if Awaited(s, id, e) && start.Opened? && Verdict(s, e) == None
      then {Expiry, Poll(start.request, s.generation)} else {}
    case Exchanged(id, exchange) =>
      if !Awaited(s, id, e) then {}
      else if AsksAgain(exchange) then {Poll(s.calls[id].job.request, s.generation)}
      else if exchange.Granted? && GrantVerdict(s, exchange) == None then {Expiry}
      else {}
    case Scheduled(id) => if Awaited(s, id, e) && s.status == Authorized then {HealthPoll(s.generation)} else {}
    case _ => {}
  }

  /** A call of the running generation that was not there before. */
  predicate NewCall(s: Embed, s': Embed, id: CallId) {
    && id in s'.calls && s'.calls[id].generation == s'.generation
    && (id !in s.calls || s'.calls[id] != s.calls[id])
  }

  ghost predicate CallsAs(s: Embed, s': Embed, e: Event) {
    && (forall id | NewCall(s, s', id) :: Starts(s, e) == Some(s'.calls[id].job))
    && (Starts(s, e).Some? ==> exists id :: NewCall(s, s', id))
    && (forall id <- s.calls | CallOf(e) != Some(id) :: id in s'.calls && s'.calls[id] == s.calls[id])
  }

  predicate NewTimer(s: Embed, s': Embed, t: TimerId) {
    t in s'.timers && t !in s.timers
  }

  ghost predicate TimersAs(s: Embed, s': Embed, e: Event) {
    && (forall t | NewTimer(s, s', t) :: s'.timers[t] in Arms(s, e))
    && (forall timer <- Arms(s, e) :: exists t :: NewTimer(s, s', t) && s'.timers[t] == timer)
    && (forall t <- s.timers | t in s'.timers :: s'.timers[t] == s.timers[t])
  }

  /** What the tables rely on. */
  ghost predicate Settled(s: Embed) {
    && Tidy(s) && (forall t <- s.timers :: t < s.nextId) && (forall id <- s.calls :: id < s.nextId)
    && (forall id <- s.calls :: s.calls[id].generation <= s.generation)
    && (forall t <- s.timers | s.timers[t].HealthPoll? :: s.timers[t].generation == s.generation && s.token.Some?)
    && (forall id <- s.calls | s.calls[id].job.Refreshing? && s.calls[id].job.chain.Some? ::
          s.calls[id].job.chain.value == s.calls[id].generation)
  }

  lemma KeptIsSettled(s: Embed)
    requires Kept(s)
    ensures Settled(s)
  {
    KeptIsTidy(s);
    if Hollow(s) {
      HollowIsIdle(s);
      var r := s.(status := Idle);
      forall id <- s.calls ensures CallOk(r, s.calls[id]) { assert r.calls[id] == s.calls[id]; }
    } else {
      forall t <- s.timers ensures TimerOk(s, t) {}
      forall id <- s.calls ensures CallOk(s, s.calls[id]) {}
    }
  }

  lemma Below(s: Embed)
    requires Settled(s)
    ensures forall id <- s.calls :: id < s.nextId && s.calls[id].generation <= s.generation
    ensures forall t <- s.timers :: t < s.nextId
  {
    hide Tidy;
  }

  // ----- event by event -----

  /** Nothing new is asked for. */
  ghost predicate Quiet(s: Embed, s': Embed, answered: Option<CallId>) {
    && (forall id :: !NewCall(s, s', id)) && (forall t :: !NewTimer(s, s', t))
    && (forall id <- s.calls | answered != Some(id) :: id in s'.calls && s'.calls[id] == s.calls[id])
    && (forall t <- s.timers | t in s'.timers :: s'.timers[t] == s.timers[t])
  }

  lemma QuietIsAs(s: Embed, s': Embed, e: Event)
    requires Quiet(s, s', CallOf(e)) && Starts(s, e) == None && Arms(s, e) == {}
    ensures CallsAs(s, s', e) && TimersAs(s, s', e)
  {
    hide Starts, Arms, NewCall, NewTimer;
  }

  lemma StopIsQuiet(s: Embed, t: Embed, status: Status, answered: Option<CallId>)
    requires t.generation == s.generation && (forall id <- s.calls :: s.calls[id].generation <= s.generation)
    requires t.calls == s.calls || (answered.Some? && t.calls == s.calls - {answered.value})
    requires forall x <- t.timers :: x in s.timers && t.timers[x] == s.timers[x]
    ensures Quiet(s, StopAs(t, status), answered)
  {
    forall x <- StopAs(t, status).timers ensures x in t.timers {}
  }

  /** One call is new, no timer is. */
  ghost predicate OneCall(s: Embed, s': Embed, answered: Option<CallId>, id: CallId, job: Job) {
    && NewCall(s, s', id) && s'.calls[id].job == job && (forall x | NewCall(s, s', x) :: x == id)
    && (forall t :: !NewTimer(s, s', t))
    && (forall x <- s.calls | answered != Some(x) :: x in s'.calls && s'.calls[x] == s.calls[x])
    && (forall t <- s.timers | t in s'.timers :: s'.timers[t] == s.timers[t])
  }

  lemma OneCallIsAs(s: Embed, s': Embed, e: Event, id: CallId, job: Job)
    requires OneCall(s, s', CallOf(e), id, job) && Starts(s, e) == Some(job) && Arms(s, e) == {}
    ensures CallsAs(s, s', e) && TimersAs(s, s', e)
  {
    hide Starts, Arms, NewCall, NewTimer;
  }

  /** A call that goes on as another job. */
  lemma SameCallIsOne(s: Embed, s': Embed, id: CallId, job: Job)
    requires id in s.calls && id in s'.calls && s'.calls == s.calls[id := s'.calls[id]] && s'.timers == s.timers
    requires s'.calls[id].job == job != s.calls[id].job && s'.calls[id].generation == s'.generation
    ensures OneCall(s, s', Some(id), id, job)
  {
  }

  lemma LaunchIsOne(s: Embed, t: Embed, s': Embed, c: Call, answered: Option<CallId>)
    requires t.nextId >= s.nextId && (forall id <- s.calls :: id < s.nextId)
    requires t.calls == s.calls || (answered.Some? && t.calls == s.calls - {answered.value})
    requires s'.calls == t.calls[t.nextId := c] && c.generation == s'.generation
    requires forall x <- s'.timers :: x in s.timers && s'.timers[x] == s.timers[x]
    ensures OneCall(s, s', answered, t.nextId, c.job)
  {
  }

  /** At most the answered call is gone, and no timer is new. */
  lemma LessIsQuiet(s: Embed, s': Embed, answered: Option<CallId>)
    requires s'.calls == s.calls || (answered.Some? && s'.calls == s.calls - {answered.value})
    requires forall t <- s'.timers :: t in s.timers && s'.timers[t] == s.timers[t]
    ensures Quiet(s, s', answered)
  {
  }

  /** What is launched for an earlier generation is not asked for by the running one. */
  lemma OldLaunchIsQuiet(s: Embed, s': Embed, c: Call)
    requires s.nextId !in s.calls && s'.calls == s.calls[s.nextId := c] && c.generation < s'.generation
    requires forall t <- s'.timers :: t in s.timers && s'.timers[t] == s.timers[t]
    ensures Quiet(s, s', None)
  {
  }

  lemma StopShape(s: Embed, status: Status)
    ensures var t := StopAs(s, status);
      t.calls == s.calls && t.nextId == s.nextId && t.generation == s.generation + 1
      && forall x <- t.timers :: x in s.timers && t.timers[x] == s.timers[x]
  {
  }

  lemma CheckIs(s: Embed)
    requires Settled(s)
    ensures var (t, active) := CheckActive(s);
      && (active <==> InUse(s)) && (!Overdue(s) ==> t == s) && (Overdue(s) ==> t == StopAs(s, Expired))
  {
    CheckFollows(s);
  }

  lemma RefreshAsks(s: Embed)
    requires Settled(s)
    ensures CallsAs(s, RefreshSegment(s, None), Refresh) && TimersAs(s, RefreshSegment(s, None), Refresh)
  {
    hide Settled, CallsAs, TimersAs, Quiet, OneCall, OnlyTimers, StopAs, CheckActive;
    Below(s);
    var s' := RefreshSegment(s, None);
    CheckIs(s);
    if Overdue(s) {
      StopIsQuiet(s, s, Expired, None);
      QuietIsAs(s, s', Refresh);
    } else if InUse(s) && s.selected != "" {
      LaunchIsOne(s, s, s', Call(Refreshing(s.selected, None), s.generation, s.selection), None);
      OneCallIsAs(s, s', Refresh, s.nextId, Refreshing(s.selected, None));
    } else {
      LessIsQuiet(s, s', None);
      QuietIsAs(s, s', Refresh);
    }
  }

  lemma SelectAsks(s: Embed, id: string)
    requires Settled(s)
    ensures var e := Select(id); CallsAs(s, Step(s, e), e) && TimersAs(s, Step(s, e), e)
  {
    hide Settled, CallsAs, TimersAs, Quiet, OneCall, OnlyTimers, StopAs;
    Below(s);
    var e, s' := Select(id), Step(s, Select(id));
    CheckIs(s);
    if Overdue(s) {
      StopIsQuiet(s, s, Expired, None);
      QuietIsAs(s, s', e);
    } else if MaySelect(s, id) {
      var t := Selecting(s, id);
      assert CheckActive(t) == (t, true);
      if id != "" {
        LaunchIsOne(s, t, s', Call(Refreshing(id, None), t.generation, t.selection), None);
        OneCallIsAs(s, s', e, t.nextId, Refreshing(id, None));
      } else {
        LessIsQuiet(s, s', None);
        QuietIsAs(s, s', e);
      }
    } else {
      LessIsQuiet(s, s', None);
      QuietIsAs(s, s', e);
    }
  }

  lemma PairAsks(s: Embed)
    requires Settled(s)
    ensures CallsAs(s, Step(s, Pair), Pair) && TimersAs(s, Step(s, Pair), Pair)
  {
    hide Settled, CallsAs, TimersAs, Quiet, OneCall, OnlyTimers, StopAs, CheckActive;
    Below(s);
    var s' := Step(s, Pair);
    CheckIs(s);
    if Overdue(s) {
      StopIsQuiet(s, s, Expired, None);
      QuietIsAs(s, s', Pair);
    } else if MayPair(s) {
      LaunchIsOne(s, s, s', Call(Pairing(s.selected), s.generation, s.selection), None);
      OneCallIsAs(s, s', Pair, s.nextId, Pairing(s.selected));
    } else {
      LessIsQuiet(s, s', None);
      QuietIsAs(s, s', Pair);
    }
  }

  lemma FireAsks(s: Embed, timer: TimerId)
    requires Settled(s) && timer in s.timers
    ensures var e := Fire(timer); CallsAs(s, Step(s, e), e) && TimersAs(s, Step(s, e), e)
  {
    var e, s' := Fire(timer), Step(s, Fire(timer));
    var t := s.(timers := s.timers - {timer});
    match s.timers[timer]
    case Expiry =>
      StopIsQuiet(s, t, Expired, None);
      hide StopAs, Settled;
      QuietIsAs(s, s', e);
    case Poll(request, generation) =>
      if generation == s.generation && s.verifier.Some? {
        LaunchIsOne(s, t, s', Call(Exchanging(request), s.generation, s.selection), None);
        OneCallIsAs(s, s', e, s.nextId, Exchanging(request));
      } else {
        QuietIsAs(s, s', e);
      }
    case HealthPoll(generation) =>
      HealthAsks(s, timer, generation);
  }

  lemma HealthRuns(s: Embed, timer: TimerId)
    requires Settled(s) && timer in s.timers && s.timers[timer].HealthPoll?
    ensures s.timers[timer].generation == s.generation && s.token.Some? && s.status == Authorized
  {
  }

  lemma HealthAsks(s: Embed, timer: TimerId, generation: nat)
    requires Settled(s) && timer in s.timers && s.timers[timer] == HealthPoll(generation)
    ensures var e := Fire(timer); CallsAs(s, Step(s, e), e) && TimersAs(s, Step(s, e), e)
  {
    hide Settled, CallsAs, TimersAs, Quiet, OneCall, StopAs;
    var e, s' := Fire(timer), Step(s, Fire(timer));
    var t := s.(timers := s.timers - {timer});
    Below(s);
    assert generation == s.generation && s.token.Some? && s.status == Authorized by { HealthRuns(s, timer); }
    StopShape(t, Expired);
    if Overdue(s) {
      OldLaunchIsQuiet(s, s', Call(Scheduling, generation, StopAs(t, Expired).selection));
      QuietIsAs(s, s', e);
    } else {
      assert CheckActive(t) == (t, true);
      LaunchIsOne(s, t, s', Call(ChainJob(s.selected, generation), s.generation, s.selection), None);
      OneCallIsAs(s, s', e, s.nextId, ChainJob(s.selected, generation));
    }
  }

  lemma BeginAsks(s: Embed, verifier: nat)
    requires Settled(s)
    ensures var e := Begin(verifier); CallsAs(s, Step(s, e), e) && TimersAs(s, Step(s, e), e)
  {
    hide Settled, CallsAs, TimersAs, Quiet, OneCall, OnlyTimers;
    Below(s);
    var e, s' := Begin(verifier), Step(s, Begin(verifier));
    var t := StopAs(s, Starting).(verifier := Some(verifier));
    LaunchIsOne(s, t, s', Call(Digesting, t.generation, t.selection), None);
    OneCallIsAs(s, s', e, t.nextId, Digesting);
  }

  lemma ContextAsks(s: Embed, context: Option<Context>)
    requires Settled(s)
    ensures var e := SetContext(context); CallsAs(s, Step(s, e), e) && TimersAs(s, Step(s, e), e)
  {
    hide Settled, CallsAs, TimersAs, Quiet, StopAs;
    var e, s' := SetContext(context), Step(s, SetContext(context));
    var t := s.(invalidContext := context.None?, context := context, selection := s.selection + 1,
                action := None, health := None, busy := false);
    StopShape(t, Denied);
    LessIsQuiet(s, s', None);
    QuietIsAs(s, s', e);
  }

  lemma DropIsQuiet(s: Embed, id: CallId)
    ensures Quiet(s, Finish(s, id), Some(id))
  {
  }

  lemma DigestAsks(s: Embed, id: CallId, ok: bool)
    requires Settled(s) && id in s.calls && s.calls[id].job == Digesting
    ensures var e := Digested(id, ok); CallsAs(s, Step(s, e), e) && TimersAs(s, Step(s, e), e)
  {
    hide Settled, CallsAs, TimersAs, Quiet, OneCall, StopAs;
    var e, s' := Digested(id, ok), Step(s, Digested(id, ok));
    StopShape(Finish(s, id), Unavailable);
    if Awaited(s, id, e) && ok {
      SameCallIsOne(s, s', id, Beginning);
      OneCallIsAs(s, s', e, id, Beginning);
    } else {
      LessIsQuiet(s, s', Some(id));
      QuietIsAs(s, s', e);
    }
  }

  /** New timers, and no new call. */
  ghost predicate OnlyTimers(s: Embed, s': Embed, answered: Option<CallId>, armed: set<Timer>) {
    && (forall id :: !NewCall(s, s', id))
    && (forall t | NewTimer(s, s', t) :: s'.timers[t] in armed)
    && (forall timer <- armed :: exists t :: NewTimer(s, s', t) && s'.timers[t] == timer)
    && (forall id <- s.calls | answered != Some(id) :: id in s'.calls && s'.calls[id] == s.calls[id])
    && (forall t <- s.timers | t in s'.timers :: s'.timers[t] == s.timers[t])
  }

  lemma OnlyTimersIsAs(s: Embed, s': Embed, e: Event)
    requires OnlyTimers(s, s', CallOf(e), Arms(s, e)) && Starts(s, e) == None
    ensures CallsAs(s, s', e) && TimersAs(s, s', e)
  {
    hide Starts, Arms, NewCall, NewTimer;
  }

  lemma PollIsArmed(s: Embed, id: CallId, timer: Timer)
    requires Settled(s)
    ensures OnlyTimers(s, SetPoll(Finish(s, id), timer), Some(id), {timer})
  {
    assert NewTimer(s, SetPoll(Finish(s, id), timer), s.nextId);
  }

  /** Two timers are new. */
  lemma BothAreArmed(s: Embed, s': Embed, id: CallId, timer: Timer)
    requires (forall t <- s.timers :: t < s.nextId) && s'.calls == s.calls - {id}
    requires s'.timers == s.timers[s.nextId := Expiry][s.nextId + 1 := timer]
    ensures OnlyTimers(s, s', Some(id), {Expiry, timer})
  {
    assert NewTimer(s, s', s.nextId) && NewTimer(s, s', s.nextId + 1);
  }

  lemma StartAsks(s: Embed, id: CallId, start: StartReply)
    requires Settled(s) && id in s.calls && s.calls[id].job == Beginning
    ensures var e := Started(id, start); CallsAs(s, Step(s, e), e) && TimersAs(s, Step(s, e), e)
  {
    hide Settled, CallsAs, TimersAs, Quiet, OnlyTimers, StopAs;
    var e, s' := Started(id, start), Step(s, Started(id, start));
    Below(s);
    StopShape(Finish(s, id), Expired);
    if start.StartFailed? { StopShape(Finish(s, id), Refused(start.refusal)); }
    if Awaited(s, id, e) && start.Opened? && Verdict(s, e) == None {
      BothAreArmed(s, s', id, Poll(start.request, s.generation));
      OnlyTimersIsAs(s, s', e);
    } else {
      LessIsQuiet(s, s', Some(id));
      QuietIsAs(s, s', e);
    }
  }

  lemma ScheduleAsks(s: Embed, id: CallId)
    requires Settled(s) && id in s.calls && s.calls[id].job == Scheduling
    ensures var e := Scheduled(id); CallsAs(s, Step(s, e), e) && TimersAs(s, Step(s, e), e)
  {
    var e, s' := Scheduled(id), Step(s, Scheduled(id));
    DropIsQuiet(s, id);
    PollIsArmed(s, id, HealthPoll(s.generation));
    hide Settled, Finish, SetPoll, Quiet, OnlyTimers;
    if Awaited(s, id, e) && s.status == Authorized { OnlyTimersIsAs(s, s', e); } else { QuietIsAs(s, s', e); }
  }

  lemma AuthorizeShape(s: Embed, g: ExchangeReply, expiresAt: int)
    requires g.Granted?
    ensures var u := Authorize(s, g, expiresAt);
      u.calls == s.calls && u.timers == Without(s.timers, s.expiry)[s.nextId := Expiry] && u.nextId == s.nextId + 1
      && u.generation == s.generation && u.selected == FirstChoice(s.context, g.connections)
  {
    hide FirstChoice;
  }

  lemma GrantShape(s: Embed, s': Embed, e: Event, id: CallId, c: Call)
    requires CallOf(e) == Some(id) && Starts(s, e) == Some(c.job) && Arms(s, e) == {Expiry}
    requires (forall x <- s.calls :: x < s.nextId) && (forall t <- s.timers :: t < s.nextId)
    requires s'.calls == (s.calls - {id})[s.nextId + 1 := c] && c.generation == s'.generation
    requires s'.timers == Without(s.timers, s.expiry)[s.nextId := Expiry]
    ensures CallsAs(s, s', e) && TimersAs(s, s', e)
  {
    hide Starts, Arms;
    assert NewCall(s, s', s.nextId + 1) && NewTimer(s, s', s.nextId);
  }

  lemma GrantAsks(s: Embed, id: CallId, g: ExchangeReply)
    requires Settled(s) && g.Granted? && id in s.calls && GrantVerdict(s, g) == None
    requires s.calls[id].job.Exchanging? && s.calls[id].generation == s.generation
    ensures var e := Exchanged(id, g); CallsAs(s, Step(s, e), e) && TimersAs(s, Step(s, e), e)
  {
    hide Settled, CallsAs, TimersAs, FirstChoice, GrantedBy, StopAs;
    var e, s' := Exchanged(id, g), Step(s, Exchanged(id, g));
    Below(s);
    var u := Authorize(Finish(s, id), g, Min(g.expiresAt, s.now + 300000));
    var job := ChainJob(FirstChoice(s.context, g.connections), s.generation);
    assert CheckActive(u) == (u, true);
    AuthorizeShape(Finish(s, id), g, Min(g.expiresAt, s.now + 300000));
    hide Authorize;
    GrantShape(s, s', e, id, Call(job, u.generation, u.selection));
  }

  lemma ExchangeAsks(s: Embed, id: CallId, exchange: ExchangeReply)
    requires Settled(s) && id in s.calls && s.calls[id].job.Exchanging?
    ensures var e := Exchanged(id, exchange); CallsAs(s, Step(s, e), e) && TimersAs(s, Step(s, e), e)
  {
    hide Settled, CallsAs, TimersAs, Quiet, OnlyTimers, StopAs, Authorize, RefreshSegment, GrantedBy;
    var e, s' := Exchanged(id, exchange), Step(s, Exchanged(id, exchange));
    if Awaited(s, id, e) && AsksAgain(exchange) {
      PollIsArmed(s, id, Poll(s.calls[id].job.request, s.generation));
      OnlyTimersIsAs(s, s', e);
    } else if Awaited(s, id, e) && exchange.Granted? && GrantVerdict(s, exchange) == None {
      GrantAsks(s, id, exchange);
    } else {
      StopShape(Finish(s, id), Expired);
      StopShape(Finish(s, id), Denied);
      StopShape(Finish(s, id), Unavailable);
      LessIsQuiet(s, s', Some(id));
      QuietIsAs(s, s', e);
    }
  }

  lemma ResultIsQuiet(s: Embed, id: string, report: HealthReply)
    requires Settled(s)
    ensures var u := RefreshResult(s, id, report);
      u.calls == s.calls && (forall t <- u.timers :: t in s.timers && u.timers[t] == s.timers[t])
      && u.generation >= s.generation
  {
    CheckIs(s);
    hide Settled, CheckActive;
  }

  /** The continuation takes the place of the refresh, or nothing does. */
  lemma OverIs(s: Embed, u: Embed, id: CallId)
    requires Settled(s) && id in s.calls && s.calls[id].job.Refreshing? && u.calls == s.calls
    requires u.generation >= s.generation && forall t <- u.timers :: t in s.timers && u.timers[t] == s.timers[t]
    ensures var c, s' := s.calls[id], RefreshOver(u, s.calls[id], id);
      if c.job.chain.Some? && c.generation == u.generation then OneCall(s, s', Some(id), id, Scheduling)
      else Quiet(s, s', Some(id))
  {
    hide Tidy;
  }

  lemma ReportAsks(s: Embed, id: CallId, report: HealthReply)
    requires Settled(s) && id in s.calls && s.calls[id].job.Refreshing?
    ensures var e := Refreshed(id, report); CallsAs(s, Step(s, e), e) && TimersAs(s, Step(s, e), e)
  {
    var e, s' := Refreshed(id, report), Step(s, Refreshed(id, report));
    var c := s.calls[id];
    var u := if Fresh(s, id) then RefreshResult(s, c.job.id, report) else s;
    assert s' == RefreshOver(u, c, id) by { hide RefreshResult, RefreshOver, Settled; }
    assert Starts(s, e) == if Awaited(s, id, e) && Verdict(s, e) == None && c.job.chain.Some? then Some(Scheduling)
      else None
      by { hide Verdict, Settled; }
    assert c.generation <= s.generation && Tidy(s);
    hide Step, RefreshResult, RefreshedSegment, Verdict, Starts, Tidy, RefreshOver, OneCall, Quiet, CallsAs, TimersAs;
    ResultIsQuiet(s, c.job.id, report);
    OverIs(s, u, id);
    OverGeneration(u, c, id);
    ReportFollows(s, id, report);
    hide Settled;
    if Starts(s, e).Some? { OneCallIsAs(s, s', e, id, Scheduling); } else { QuietIsAs(s, s', e); }
  }

  lemma OverGeneration(u: Embed, c: Call, id: CallId)
    requires c.job.Refreshing?
    ensures RefreshOver(u, c, id).generation == u.generation
  {
  }

  lemma OfferShape(s: Embed, id: CallId, offer: PairReply)
    requires id in s.calls && s.calls[id].job.Pairing?
    ensures var s' := PairedSegment(s, id, offer);
      s'.calls == s.calls - {id} && forall t <- s'.timers :: t in s.timers && s'.timers[t] == s.timers[t]
  {
    hide StopAs;
    StopShape(Finish(s, id), Expired);
    StopShape(Finish(s, id), Denied);
    StopShape(Finish(s, id), Unavailable);
  }

  lemma OfferAsks(s: Embed, id: CallId, offer: PairReply)
    requires Settled(s) && id in s.calls && s.calls[id].job.Pairing?
    ensures var e := Paired(id, offer); CallsAs(s, Step(s, e), e) && TimersAs(s, Step(s, e), e)
  {
    hide Settled, CallsAs, TimersAs, Quiet, PairedSegment;
    var e, s' := Paired(id, offer), Step(s, Paired(id, offer));
    OfferShape(s, id, offer);
    LessIsQuiet(s, s', Some(id));
    QuietIsAs(s, s', e);
  }

  lemma PlainAsks(s: Embed, e: Event)
    requires e == ClearAction || e.Advance?
      || (CallOf(e).Some? && (CallOf(e).value !in s.calls || !Awaits(s.calls[CallOf(e).value].job, e)))
    ensures CallsAs(s, Step(s, e), e) && TimersAs(s, Step(s, e), e)
  {
    var s' := Step(s, e);
    assert s'.calls == s.calls && s'.timers == s.timers && s'.generation == s.generation;
    QuietIsAs(s, s', e);
  }

  lemma StepAsks(s: Embed, e: Event)
    requires Settled(s)
    ensures CallsAs(s, Step(s, e), e) && TimersAs(s, Step(s, e), e)
  {
    hide Settled, CallsAs, TimersAs, StopAs, BeginSegment, ContextSegment, SelectSegment, RefreshSegment, PairSegment,
         FireSegment, DigestedSegment, StartedSegment, ExchangedSegment, RefreshedSegment, PairedSegment,
           ScheduledSegment;
    if CallOf(e).Some? {
      var id := CallOf(e).value;
      if id !in s.calls || !Awaits(s.calls[id].job, e) {
        PlainAsks(s, e);
      } else {
        AnswerAsks(s, e, id);
      }
    } else {
      match e
      case Stop(status) => StopAsks(s, status);
      case Begin(verifier) => BeginAsks(s, verifier);
      case SetContext(context) => ContextAsks(s, context);
      case Select(id) => SelectAsks(s, id);
      case Refresh => RefreshAsks(s);
      case Pair => PairAsks(s);
      case Fire(timer) => if timer in s.timers { FireAsks(s, timer); } else { AbsentTimer(s, timer); }
      case _ => PlainAsks(s, e);
    }
  }

  lemma StopAsks(s: Embed, status: Status)
    requires Settled(s)
    ensures CallsAs(s, Step(s, Stop(status)), Stop(status)) && TimersAs(s, Step(s, Stop(status)), Stop(status))
  {
    StopIsQuiet(s, s, status, None);
    hide StopAs, Settled;
    QuietIsAs(s, Step(s, Stop(status)), Stop(status));
  }

  lemma AbsentTimer(s: Embed, timer: TimerId)
    requires timer !in s.timers
    ensures CallsAs(s, Step(s, Fire(timer)), Fire(timer)) && TimersAs(s, Step(s, Fire(timer)), Fire(timer))
  {
    assert Quiet(s, s, None);
    QuietIsAs(s, s, Fire(timer));
  }

  lemma AnswerAsks(s: Embed, e: Event, id: CallId)
    requires Settled(s) && CallOf(e) == Some(id) && id in s.calls && Awaits(s.calls[id].job, e)
    ensures CallsAs(s, Step(s, e), e) && TimersAs(s, Step(s, e), e)
  {
    hide Settled, CallsAs, TimersAs, Step;
    match e
    case Digested(_, ok) => DigestAsks(s, id, ok);
    case Started(_, start) => StartAsks(s, id, start);
    case Exchanged(_, exchange) => ExchangeAsks(s, id, exchange);
    case Refreshed(_, report) => ReportAsks(s, id, report);
    case Paired(_, offer) => OfferAsks(s, id, offer);
    case Scheduled(_) => ScheduleAsks(s, id);
  }

  /**
   In every run, a step starts exactly the call and arms exactly the timers that the tables say, and leaves the other
   calls and what it keeps of the timers as they are.
   */
  lemma EveryStepAsks(events: seq<Event>, e: Event)
    ensures var s := After(events); CallsAs(s, Step(s, e), e) && TimersAs(s, Step(s, e), e)
  {
    var s := After(events);
    EveryRunKeeps(events);
    KeptIsSettled(s);
    hide After, Kept;
    StepAsks(s, e);
  }

  // ----- the authorization that is polled -----

  /** The authorization that was opened last for a session that waited for it. */
  ghost function Opened(events: seq<Event>): Option<nat> {
    if events == [] then None
    else
      var before, e := events[..|events| - 1], events[|events| - 1];
      if e.Started? && e.start.Opened? && Awaited(After(before), e.call, e) then Some(e.start.request)
        else Opened(before)
  }

  /** Polls and exchanges of the running session are all for this authorization. */
  ghost predicate PollsFor(s: Embed, request: Option<nat>) {
    && (forall t <- s.timers | s.timers[t].Poll? :: request == Some(s.timers[t].request))
    && (forall id <- s.calls | s.calls[id].job.Exchanging? && s.calls[id].generation == s.generation ::
          request == Some(s.calls[id].job.request))
  }

  /** Where an authorization is still awaited, nothing is polled yet. */
  lemma NothingPolledYet(s: Embed, e: Event)
    requires Kept(s) && e.Started? && Awaited(s, e.call, e)
    ensures PollsFor(s, None)
  {
    if Hollow(s) { HollowIsIdle(s); }
    assert CallOk(s, s.calls[e.call]);
  }

  /** The authorization on record after an event. */
  ghost function Recorded(s: Embed, e: Event, request: Option<nat>): Option<nat> {
    if e.Started? && e.start.Opened? && Awaited(s, e.call, e) then Some(e.start.request) else request
  }

  lemma NewPollsFor(s: Embed, e: Event, request: Option<nat>)
    requires PollsFor(s, request)
    ensures forall timer <- Arms(s, e) | timer.Poll? :: Recorded(s, e, request) == Some(timer.request)
    ensures Starts(s, e).Some? && Starts(s, e).value.Exchanging? ==>
      Recorded(s, e, request) == Some(Starts(s, e).value.request)
  {
    hide GrantVerdict, FirstChoice, Verdict, MaySelect, MayPair;
  }

  lemma OldPollsFor(s: Embed, e: Event, request: Option<nat>)
    requires Kept(s) && PollsFor(s, request)
    ensures PollsFor(s, Recorded(s, e, request))
  {
    if e.Started? && Awaited(s, e.call, e) { NothingPolledYet(s, e); }
    hide Kept;
  }

  lemma StepPolls(s: Embed, s': Embed, e: Event, request: Option<nat>)
    requires PollsFor(s, Recorded(s, e, request)) && CallsAs(s, s', e) && TimersAs(s, s', e)
    requires s'.generation == s.generation
      || (s'.generation == s.generation + 1 && forall id <- s.calls :: s.calls[id].generation <= s.generation)
    requires forall timer <- Arms(s, e) | timer.Poll? :: Recorded(s, e, request) == Some(timer.request)
    requires Starts(s, e).Some? && Starts(s, e).value.Exchanging? ==>
      Recorded(s, e, request) == Some(Starts(s, e).value.request)
    ensures PollsFor(s', Recorded(s, e, request))
  {
    hide Recorded, Starts, Arms;
    forall t <- s'.timers | s'.timers[t].Poll? ensures Recorded(s, e, request) == Some(s'.timers[t].request) {
      if t !in s.timers { assert NewTimer(s, s', t); }
    }
    forall id <- s'.calls | s'.calls[id].job.Exchanging? && s'.calls[id].generation == s'.generation
      ensures Recorded(s, e, request) == Some(s'.calls[id].job.request)
    {
      if id !in s.calls || s'.calls[id] != s.calls[id] { assert NewCall(s, s', id); }
    }
  }

  /**
   In every run, whatever a session polls for, by a timer or by a request, is the authorization that was opened last
   for it.
   */
  lemma {:induction false} EveryRunPolls(events: seq<Event>)
    ensures PollsFor(After(events), Opened(events))
  {
    hide Step, Kept, PollsFor, CallsAs, TimersAs;
    if events == [] {
      assert PollsFor(INITIAL, None) by { NothingRuns(); }
    } else {
      var before, e := events[..|events| - 1], events[|events| - 1];
      EveryRunPolls(before);
      EveryRunKeeps(before);
      EveryStepAsks(before, e);
      EveryStepFollows(before, e);
      OneMorePolls(After(before), e, Opened(before));
    }
  }

  lemma OneMorePolls(s: Embed, e: Event, request: Option<nat>)
    requires Kept(s) && PollsFor(s, request) && CallsAs(s, Step(s, e), e) && TimersAs(s, Step(s, e), e)
    requires StepFollowsAs(s, Step(s, e), e)
    ensures PollsFor(Step(s, e), Recorded(s, e, request))
  {
    hide Step, Kept, PollsFor, CallsAs, TimersAs, Verdict, Shown, Cleared, Recorded, Starts, Arms, Settled;
    KeptIsSettled(s);
    Below(s);
    OldPollsFor(s, e, request);
    NewPollsFor(s, e, request);
    StepPolls(s, Step(s, e), e, request);
  }

  lemma NothingRuns()
    ensures PollsFor(INITIAL, None)
  {
  }
}
