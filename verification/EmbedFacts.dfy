/**
 What users see of an embedded session: exactly which events end it and how, and exactly what every other event shows.
 The client object of EmbedSessionClient does these steps.
 */
module EmbedFacts {
  import opened Wrappers
  import opened EmbedProtocol
  import opened EmbedSafety

  /** A session in use whose time is up. */
  predicate Overdue(s: Embed) {
    s.token.Some? && s.expiresAt <= s.now
  }

  predicate InUse(s: Embed) {
    s.token.Some? && s.now < s.expiresAt
  }

  predicate Awaited(s: Embed, id: CallId, e: Event) {
    id in s.calls && Awaits(s.calls[id].job, e) && s.calls[id].generation == s.generation
  }

  predicate AwaitedHere(s: Embed, id: CallId, e: Event) {
    Awaited(s, id, e) && s.calls[id].selection == s.selection
  }

  function Refused(refusal: Refusal): Status {
    if refusal.Some? && refusal.value in {401, 403, 404} then Denied else Unavailable
  }

  /** A context the running session was not granted for. */
  predicate Foreign(s: Embed, context: Option<Context>) {
    context.None? || !GrantedBy(context.value, s.accountId, s.connections)
  }

  /** How a grant is received: refused, too late, or with the moment it expires. */
  function GrantVerdict(s: Embed, g: ExchangeReply): Option<Status>
    requires g.Granted?
  {
    if s.invalidContext || (s.context.Some? && !GrantedBy(s.context.value, g.accountId, g.connections))
      then Some(Denied)
    else if Min(g.expiresAt, s.now + 300000) <= s.now then Some(Expired)
    else None
  }

  /** The status in which an event ends the session, if it does. */
  function Verdict(s: Embed, e: Event): Option<Status> {
    match e
    case Stop(status) => Some(status)
    case Begin(_) => Some(Starting)
    case SetContext(context) =>
      if s.status == Authorized && (context.None? || context != s.context) && Foreign(s, context) then Some(Denied)
        else None
    case Select(_) => if Overdue(s) then Some(Expired) else None
    case Refresh => if Overdue(s) then Some(Expired) else None
    case Pair => if Overdue(s) then Some(Expired) else None
    case Fire(timer) =>
      if timer in s.timers && (s.timers[timer] == Expiry || (s.timers[timer].HealthPoll? && Overdue(s)))
        then Some(Expired) else None
    case Digested(id, ok) => if Awaited(s, id, e) && !ok then Some(Unavailable) else None
    case Started(id, start) =>
      if !Awaited(s, id, e) then None
      else if start.StartFailed? then Some(Refused(start.refusal))
      else if Min(start.expiresAt, s.now + 120000) <= s.now then Some(Expired)
      else None
    case Exchanged(id, exchange) =>
      if !Awaited(s, id, e) || exchange == Pending || exchange == ExchangeFailed(Some(429)) then None
      else if exchange.ExchangeFailed? then Some(Refused(exchange.refusal))
      else GrantVerdict(s, exchange)
    case Refreshed(id, report) =>
      if !AwaitedHere(s, id, e) then None
      else if report.HealthFailed? then Some(Refused(report.refusal))
      else if Overdue(s) then Some(Expired)
      else if report.BadHealth? || report.health.integrationId != s.selected then Some(Unavailable)
      else None
    case Paired(id, offer) =>
      if !AwaitedHere(s, id, e) then None
      else if offer.PairFailed? then Some(Refused(offer.refusal))
      else if Overdue(s) then Some(Expired)
      else if offer.BadOffer? || offer.action.leavesFrame
        || (s.health.Some? && s.health.value.instanceId != offer.instanceId)
        then Some(Unavailable)
      else None
    case _ => None
  }

  /** What a session holds and shows. */
  datatype Display = Display(
    status: Status, verifier: Option<nat>, token: Option<nat>,
    accountId: nat, connections: seq<Connection>, expiresAt: int,
    context: Option<Context>, invalidContext: bool,
    selected: string, health: Option<Health>, action: Option<Action>, busy: bool)

  function DisplayOf(s: Embed): Display {
    Display(s.status, s.verifier, s.token, s.accountId, s.connections, s.expiresAt, s.context, s.invalidContext,
            s.selected, s.health, s.action, s.busy)
  }

  /** What is left of a session that has ended so: its context alone. */
  function Blank(s: Embed, status: Status): Display {
    Display(status, None, None, 0, [], 0, s.context, s.invalidContext, "", None, None, false)
  }

  /** What an event that ends the session leaves: a new start its verifier, a new context itself. */
  function Cleared(s: Embed, e: Event, status: Status): Display {
    match e
    case Begin(verifier) => Blank(s, status).(verifier := Some(verifier))
    case SetContext(context) => Blank(s, status).(context := context, invalidContext := context.None?)
    case _ => Blank(s, status)
  }

  predicate MaySelect(s: Embed, id: string) {
    && InUse(s) && FindConnection(s.connections, id).Some?
    && (s.context.Some? ==> FindConnection(s.connections, id).value.inboxId == s.context.value.inboxId)
  }

  predicate MayPair(s: Embed) {
    && InUse(s) && !s.busy && FindConnection(s.connections, s.selected).Some?
    && FindConnection(s.connections, s.selected).value.canPair
  }

  /** What an accepted grant makes of the session: authorized for at most five minutes, with the verifier spent. */
  function GrantShown(s: Embed, g: ExchangeReply): Display
    requires g.Granted?
  {
    DisplayOf(s).(status := Authorized, verifier := None, token := Some(g.token), accountId := g.accountId,
                  connections := g.connections, expiresAt := Min(g.expiresAt, s.now + 300000),
                  selected := FirstChoice(s.context, g.connections))
  }

  /** What an event that does not end the session makes of what it holds and shows. */
  function Shown(s: Embed, e: Event): Display {
    var d := DisplayOf(s);
    match e
    case SetContext(context) =>
      if context.Some? && context == s.context then d.(invalidContext := false)
      else
        var c := d.(context := context, invalidContext := context.None?, health := None, action := None, busy := false);
        if s.status == Authorized && context.Some? && FindInbox(s.connections, context.value.inboxId).Some?
        then c.(selected := FindInbox(s.connections, context.value.inboxId).value.integrationId) else c
    case Select(id) =>
      if MaySelect(s, id) then d.(selected := id, health := None, action := None, busy := false) else d
    case ClearAction => d.(action := None)
    case Pair => if MayPair(s) then d.(action := None, busy := true) else d
    case Started(id, start) =>
      if Awaited(s, id, e) && start.Opened?
      then d.(status := AwaitingApproval, expiresAt := Min(start.expiresAt, s.now + 120000)) else d
    case Exchanged(id, exchange) =>
      if Awaited(s, id, e) && exchange.Granted? then GrantShown(s, exchange) else d
    case Refreshed(id, report) =>
      if !AwaitedHere(s, id, e) || !report.Healthy? then d
      else if !report.health.pairAllowed || report.health.connected
        then d.(health := Some(report.health), action := None, busy := false)
      else d.(health := Some(report.health))
    case Paired(id, offer) =>
      if !AwaitedHere(s, id, e) || !offer.Offered? then d
      else
        var overdue := offer.action.expiresAt.Some? && offer.action.expiresAt.value <= s.now;
        d.(action := if overdue then None else Some(offer.action), busy := false)
    case _ => d
  }

  /** An ended session leaves no timers and begins a new generation; any other keeps its generation. */
  predicate Follows(s: Embed, s': Embed, verdict: Option<Status>, cleared: Display, shown: Display) {
    match verdict
    case Some(status) =>
      s'.generation == s.generation + 1 && s'.timers == map[] && DisplayOf(s') == cleared.(status := status)
    case None => s'.generation == s.generation && DisplayOf(s') == shown
  }

  predicate StepFollowsAs(s: Embed, s': Embed, e: Event) {
    Follows(s, s', Verdict(s, e), Cleared(s, e, Idle), Shown(s, e))
  }

  // ----- event by event -----

  /** What the steps rely on. */
  ghost predicate Tidy(s: Embed) {
    && (forall t <- s.timers :: s.poll == Some(t) || s.expiry == Some(t))
    && (s.token.Some? ==> s.status == Authorized) && (s.status == Authorized && s.token.None? ==> s.connections == [])
    && (forall id <- s.calls | s.calls[id].generation == s.generation :: CallOk(s, s.calls[id]))
    && (forall id <- s.calls | s.calls[id].generation == s.generation && s.calls[id].job.Refreshing? :: s.token.Some?)
    && (forall id <- s.calls | s.calls[id].generation == s.generation && s.calls[id].job.Pairing? :: s.token.Some?)
  }

  lemma KeptIsTidy(s: Embed)
    requires Kept(s)
    ensures Tidy(s)
  {
    if Hollow(s) {
      HollowIsIdle(s);
    } else {
      forall t <- s.timers ensures s.poll == Some(t) || s.expiry == Some(t) { assert TimerOk(s, t); }
    }
  }

  lemma EndingFollows(s: Embed, t: Embed, status: Status, shown: Display)
    requires t.generation == s.generation && forall x <- t.timers :: t.poll == Some(x) || t.expiry == Some(x)
    ensures Follows(s, StopAs(t, status), Some(status), Blank(t, Idle), shown)
  {
  }

  lemma CheckFollows(s: Embed)
    requires Tidy(s)
    ensures var (t, active) := CheckActive(s);
      && (active <==> InUse(s)) && (!Overdue(s) ==> t == s) && (Overdue(s) ==> t == StopAs(s, Expired))
  {
  }

  lemma RefreshFollows(s: Embed, chain: Option<nat>)
    requires Tidy(s)
    ensures Follows(s, RefreshSegment(s, chain), if Overdue(s) then Some(Expired) else None, Blank(s, Idle),
                    DisplayOf(s))
    ensures !Overdue(s) ==> RefreshSegment(s, chain).generation == s.generation
  {
    CheckFollows(s);
    EndingFollows(s, s, Expired, DisplayOf(s));
    hide Tidy, CheckActive, StopAs;
  }

  lemma ContextFollows(s: Embed, context: Option<Context>)
    requires Tidy(s)
    ensures var e := SetContext(context); StepFollowsAs(s, Step(s, e), e)
  {
    hide StopAs, FindInbox;
    var t := s.(invalidContext := context.None?, context := context, selection := s.selection + 1,
                action := None, health := None, busy := false);
    EndingFollows(s, t, Denied, Shown(s, SetContext(context)));
    hide Tidy;
  }

  lemma SelectFollows(s: Embed, id: string)
    requires Tidy(s)
    ensures var e := Select(id); StepFollowsAs(s, Step(s, e), e)
  {
    CheckFollows(s);
    EndingFollows(s, s, Expired, DisplayOf(s));
    if MaySelect(s, id) {
      var t := Selecting(s, id);
      assert !Overdue(t);
      assert CheckActive(t) == (t, true);
    }
    hide Tidy, StopAs;
  }

  lemma PairFollows(s: Embed)
    requires Tidy(s)
    ensures StepFollowsAs(s, Step(s, Pair), Pair)
  {
    CheckFollows(s);
    EndingFollows(s, s, Expired, DisplayOf(s));
    hide Tidy, CheckActive, StopAs;
  }

  lemma FireFollows(s: Embed, timer: TimerId)
    requires Tidy(s)
    ensures var e := Fire(timer); StepFollowsAs(s, Step(s, e), e)
  {
    if timer in s.timers {
      var t := s.(timers := s.timers - {timer});
      assert Tidy(t) by {
        forall id <- t.calls | t.calls[id].generation == t.generation
          ensures CallOk(t, t.calls[id])
        {
          assert CallOk(s, s.calls[id]);
        }
      }
      EndingFollows(s, t, Expired, DisplayOf(s));
      if s.timers[timer].HealthPoll? { RefreshFollows(t, Some(s.timers[timer].generation)); }
      hide Tidy, StopAs, RefreshSegment;
    }
  }

  lemma FinishFollows(s: Embed, id: CallId, status: Status, shown: Display)
    requires Tidy(s)
    ensures Follows(s, StopAs(Finish(s, id), status), Some(status), Blank(s, Idle), shown)
    ensures Follows(s, Finish(s, id), None, Blank(s, Idle), DisplayOf(s))
  {
    EndingFollows(s, Finish(s, id), status, shown);
  }

  lemma DigestFollows(s: Embed, id: CallId, ok: bool)
    requires Tidy(s)
    ensures var e := Digested(id, ok); StepFollowsAs(s, Step(s, e), e)
  {
    FinishFollows(s, id, Unavailable, DisplayOf(s));
    hide Tidy, StopAs, Finish;
  }

  lemma StartFollows(s: Embed, id: CallId, start: StartReply)
    requires Tidy(s)
    ensures var e := Started(id, start); StepFollowsAs(s, Step(s, e), e)
  {
    FinishFollows(s, id, Expired, DisplayOf(s));
    if start.StartFailed? { FinishFollows(s, id, Refused(start.refusal), DisplayOf(s)); }
    hide Tidy, StopAs;
  }

  lemma ScheduleFollows(s: Embed, id: CallId)
    requires Tidy(s)
    ensures StepFollowsAs(s, Step(s, Scheduled(id)), Scheduled(id))
  {
    hide Tidy;
  }

  lemma GrantFollows(s: Embed, id: CallId, g: ExchangeReply)
    requires Tidy(s) && g.Granted?
    ensures Follows(s, GrantedSegment(Finish(s, id), g), GrantVerdict(s, g), Blank(s, Idle), GrantShown(s, g))
  {
    var shown := GrantShown(s, g);
    FinishFollows(s, id, Expired, shown);
    FinishFollows(s, id, Denied, shown);
    var u := Authorize(Finish(s, id), g, Min(g.expiresAt, s.now + 300000));
    if GrantVerdict(s, g).None? { assert CheckActive(u) == (u, true); }
    hide Tidy, StopAs, FirstChoice, GrantedBy;
  }

  lemma ExchangeFollows(s: Embed, id: CallId, exchange: ExchangeReply)
    requires Tidy(s)
    ensures var e := Exchanged(id, exchange); StepFollowsAs(s, Step(s, e), e)
  {
    FinishFollows(s, id, Denied, DisplayOf(s));
    FinishFollows(s, id, Unavailable, DisplayOf(s));
    if exchange.Granted? { GrantFollows(s, id, exchange); }
    hide Tidy, StopAs, GrantedSegment, GrantVerdict;
  }

  /** What a health report makes of the running session. */
  lemma ResultFollows(s: Embed, report: HealthReply)
    requires Tidy(s) && s.token.Some?
    ensures Follows(s, RefreshResult(s, s.selected, report),
      if report.HealthFailed? then Some(Refused(report.refusal)) else if Overdue(s) then Some(Expired)
      else if report.BadHealth? || report.health.integrationId != s.selected then Some(Unavailable) else None,
      Blank(s, Idle),
      if !report.Healthy? then DisplayOf(s)
      else if !report.health.pairAllowed || report.health.connected
        then DisplayOf(s).(health := Some(report.health), action := None, busy := false)
      else DisplayOf(s).(health := Some(report.health)))
  {
    CheckFollows(s);
    EndingFollows(s, s, Expired, DisplayOf(s));
    EndingFollows(s, s, Denied, DisplayOf(s));
    EndingFollows(s, s, Unavailable, DisplayOf(s));
    hide Tidy, StopAs, CheckActive;
  }

  lemma OverFollows(s: Embed, t: Embed, c: Call, id: CallId, verdict: Option<Status>,
                    cleared: Display, shown: Display)
    requires c.job.Refreshing?
    ensures Follows(s, RefreshOver(t, c, id), verdict, cleared, shown) == Follows(s, t, verdict, cleared, shown)
  {
  }

  lemma ReportFollows(s: Embed, id: CallId, report: HealthReply)
    requires Tidy(s)
    ensures var e := Refreshed(id, report); StepFollowsAs(s, Step(s, e), e)
  {
    var e := Refreshed(id, report);
    if id in s.calls && s.calls[id].job.Refreshing? {
      var c := s.calls[id];
      var t := if Fresh(s, id) then RefreshResult(s, c.job.id, report) else s;
      OverFollows(s, t, c, id, Verdict(s, e), Cleared(s, e, Idle), Shown(s, e));
      if AwaitedHere(s, id, e) {
        assert CallOk(s, c);
        ResultFollows(s, report);
      }
      hide Tidy, RefreshResult, RefreshOver;
    }
  }

  lemma OfferFollows(s: Embed, id: CallId, offer: PairReply)
    requires Tidy(s)
    ensures var e := Paired(id, offer); StepFollowsAs(s, Step(s, e), e)
  {
    var t := Finish(s, id);
    FinishFollows(s, id, Expired, DisplayOf(s));
    FinishFollows(s, id, Denied, DisplayOf(s));
    FinishFollows(s, id, Unavailable, DisplayOf(s));
    if AwaitedHere(s, id, Paired(id, offer)) {
      assert CheckActive(t) == (if Overdue(s) then (StopAs(t, Expired), false) else (t, true));
    }
    hide Tidy, StopAs, CheckActive;
  }

  /**
   In every run, whatever its caller claims, an event ends the session with its verdict, or shows exactly what it
   should.
   */
  lemma EveryStepFollows(events: seq<Event>, e: Event)
    ensures var s := After(events); StepFollowsAs(s, Step(s, e), e)
  {
    var s := After(events);
    EveryRunKeeps(events);
    KeptIsTidy(s);
    hide After, Kept;
    StepFollows(s, e);
  }

  lemma StepFollows(s: Embed, e: Event)
    requires Tidy(s)
    ensures StepFollowsAs(s, Step(s, e), e)
  {
    match e
    case Stop(status) => EndingFollows(s, s, status, DisplayOf(s));
    case Begin(_) => EndingFollows(s, s, Starting, DisplayOf(s));
    case SetContext(context) => ContextFollows(s, context);
    case Select(id) => SelectFollows(s, id);
    case Refresh => RefreshFollows(s, None);
    case Pair => PairFollows(s);
    case Fire(timer) => FireFollows(s, timer);
    case Exchanged(id, exchange) => ExchangeFollows(s, id, exchange);
    case Refreshed(id, report) => ReportFollows(s, id, report);
    case Paired(id, offer) => OfferFollows(s, id, offer);
    case Digested(id, ok) => DigestFollows(s, id, ok);
    case Started(id, start) => StartFollows(s, id, start);
    case Scheduled(id) => ScheduleFollows(s, id);
    case _ =>
  }

  /** A token comes only from a grant to the running session, in time, for an inbox of its context. */
  lemma TokensComeFromGrants(events: seq<Event>, e: Event)
    requires var s, s' := After(events), Step(After(events), e); s'.token.Some? && s'.token != s.token
    ensures var s := After(events);
      && e.Exchanged? && Awaited(s, e.call, e) && e.exchange.Granted? && s.now < e.exchange.expiresAt
      && !s.invalidContext
      && (s.context.Some? ==> GrantedBy(s.context.value, e.exchange.accountId, e.exchange.connections))
  {
    EveryStepFollows(events, e);
    hide After, Step;
  }
}
