/**
 The embedded session of apps/web/src/embed/session-client.ts as a protocol: a generation, a selection, a context,
 two timers and the requests in flight. Each stretch of code between two `await`s is one atomic step.
 */
module EmbedProtocol {
  import opened Wrappers

  datatype Status = Idle | Starting | AwaitingApproval | Authorized | Expired | Denied | Unavailable

  datatype Connection = Connection(integrationId: string, inboxId: nat, canPair: bool)

  datatype Context = Context(accountId: nat, inboxId: nat, conversationId: nat)

  datatype Health = Health(integrationId: string, instanceId: string, pairAllowed: bool, connected: bool)

  /** What a pairing offers; redirects and sign-ups are not accepted in the frame. */
  datatype Action = Action(leavesFrame: bool, expiresAt: Option<int>)

  datatype Timer = Expiry | Poll(request: nat, generation: nat) | HealthPoll(generation: nat)

  type TimerId = nat
  type CallId = nat

  datatype Job =
    | Digesting                                  // begin, before its first request
    | Beginning                                  // begin, waiting for the authorization
    | Exchanging(request: nat)
    | Refreshing(id: string, chain: Option<nat>) // chain: the generation whose health poll continues afterwards
    | Scheduling                                 // the continuation that re-arms the health poll
    | Pairing(id: string)

  datatype Call = Call(job: Job, generation: nat, selection: nat)

  datatype Embed = Embed(
    status: Status, connections: seq<Connection>, selected: string, expiresAt: int, accountId: nat,
    action: Option<Action>, health: Option<Health>, busy: bool,
    token: Option<nat>, verifier: Option<nat>,
    generation: nat, selection: nat, context: Option<Context>, invalidContext: bool,
    poll: Option<TimerId>, expiry: Option<TimerId>, timers: map<TimerId, Timer>,
    calls: map<CallId, Call>, nextId: nat, now: int)

  const INITIAL :=
    Embed(Idle, [], "", 0, 0, None, None, false, None, None, 0, 0, None, false, None, None, map[], map[], 0, 0)

  /** Why a request failed: the status of a refusal, or none for a network failure. */
  type Refusal = Option<nat>

  datatype StartReply = Opened(request: nat, expiresAt: int) | StartFailed(refusal: Refusal)
  datatype ExchangeReply =
    | Pending
    | Granted(accountId: nat, connections: seq<Connection>, expiresAt: int, token: nat)
    | ExchangeFailed(refusal: Refusal)
  datatype HealthReply = Healthy(health: Health) | BadHealth | HealthFailed(refusal: Refusal)
  datatype PairReply = Offered(instanceId: string, action: Action) | BadOffer | PairFailed(refusal: Refusal)

  datatype Event =
    | Stop(status: Status) | Begin(verifier: nat) | SetContext(context: Option<Context>) | Select(id: string)
    | ClearAction | Refresh | Pair
    | Fire(timer: TimerId) | Advance(to: int)
    | Digested(call: CallId, ok: bool)
    | Started(call: CallId, start: StartReply)
    | Exchanged(call: CallId, exchange: ExchangeReply)
    | Refreshed(call: CallId, report: HealthReply)
    | Paired(call: CallId, offer: PairReply)
    | Scheduled(call: CallId)

  // ----- shared helpers -----

  function Without<K, V>(m: map<K, V>, key: Option<K>): map<K, V> {
    match key
    case Some(k) => m - {k}
    case None => m
  }

  /** `stop`: everything of the running session is dropped, both timers included. */
  function StopAs(s: Embed, status: Status): Embed {
    s.(status := status, connections := [], selected := "", expiresAt := 0, accountId := 0,
       action := None, health := None, busy := false, token := None, verifier := None,
       generation := s.generation + 1, selection := s.selection + 1,
       timers := Without(Without(s.timers, s.poll), s.expiry))
  }

  function Fail(s: Embed, refusal: Refusal): Embed {
    StopAs(s, if refusal.Some? && refusal.value in {401, 403, 404} then Denied else Unavailable)
  }

  function Launch(s: Embed, job: Job): Embed {
    s.(calls := s.calls[s.nextId := Call(job, s.generation, s.selection)], nextId := s.nextId + 1)
  }

  function Finish(s: Embed, id: CallId): Embed {
    s.(calls := s.calls - {id})
  }

  function SetPoll(s: Embed, timer: Timer): Embed {
    s.(poll := Some(s.nextId), timers := s.timers[s.nextId := timer], nextId := s.nextId + 1)
  }

  function SetExpiry(s: Embed): Embed {
    s.(expiry := Some(s.nextId), timers := s.timers[s.nextId := Expiry], nextId := s.nextId + 1)
  }

  predicate GrantedBy(context: Context, accountId: nat, connections: seq<Connection>) {
    context.accountId == accountId && exists c <- connections :: c.inboxId == context.inboxId
  }

  /** `connections.find(c => c.inboxId === inboxId)`. */
  function FindInbox(connections: seq<Connection>, inboxId: nat): (c: Option<Connection>)
    ensures c.Some? ==> c.value in connections && c.value.inboxId == inboxId
    ensures c.None? ==> forall x <- connections :: x.inboxId != inboxId
  {
    if connections == [] then None
    else if connections[0].inboxId == inboxId then Some(connections[0])
    else FindInbox(connections[1..], inboxId)
  }

  /** `connections.find(c => c.integrationId === id)`. */
  function FindConnection(connections: seq<Connection>, id: string): (c: Option<Connection>)
    ensures c.Some? ==> c.value in connections && c.value.integrationId == id
    ensures c.None? ==> forall x <- connections :: x.integrationId != id
  {
    if connections == [] then None
    else if connections[0].integrationId == id then Some(connections[0])
    else FindConnection(connections[1..], id)
  }

  /** `#active()`: an overdue session is stopped by whoever asks. */
  function CheckActive(s: Embed): (Embed, bool) {
    if s.status != Authorized || s.token.None? then (s, false)
    else if s.expiresAt <= s.now then (StopAs(s, Expired), false)
    else (s, true)
  }

  function Min(a: int, b: int): int {
    if a <= b then a else b
  }

  // ----- segments -----

  /** `refresh()` up to its request; within the chain of a health poll its end is awaited. */
  function RefreshSegment(s: Embed, chain: Option<nat>): Embed {
    var (t, active) := CheckActive(s);
    if active && t.selected != "" then Launch(t, Refreshing(t.selected, chain))
    else if chain.Some?
      then t.(calls := t.calls[t.nextId := Call(Scheduling, chain.value, t.selection)], nextId := t.nextId + 1)
    else t
  }

  function BeginSegment(s: Embed, verifier: nat): Embed {
    Launch(StopAs(s, Starting).(verifier := Some(verifier)), Digesting)
  }

  function DigestedSegment(s: Embed, id: CallId, ok: bool): Embed
    requires id in s.calls
  {
    if s.calls[id].generation != s.generation then Finish(s, id)
    else if !ok then Fail(Finish(s, id), None)
    else s.(calls := s.calls[id := s.calls[id].(job := Beginning)])
  }

  function StartedSegment(s: Embed, id: CallId, start: StartReply): Embed
    requires id in s.calls
  {
    var t := Finish(s, id);
    if s.calls[id].generation != s.generation then t
    else
      match start
      case StartFailed(refusal) => Fail(t, refusal)
      case Opened(request, expiresAt) =>
        var deadline := Min(expiresAt, s.now + 120000);
        if deadline <= s.now then StopAs(t, Expired)
        else SetPoll(SetExpiry(t.(status := AwaitingApproval, expiresAt := deadline)), Poll(request, s.generation))
  }

  /** `#exchange` up to its request. */
  function ExchangeSegment(s: Embed, request: nat, generation: nat): Embed {
    if generation != s.generation || s.verifier.None? then s else Launch(s, Exchanging(request))
  }

  /** The connection of the context's inbox, or the first one without a context. */
  function FirstChoice(context: Option<Context>, connections: seq<Connection>): string {
    var choice :=
      if context.Some? then FindInbox(connections, context.value.inboxId)
      else if connections != [] then Some(connections[0]) else None;
    if choice.Some? then choice.value.integrationId else ""
  }

  function Authorize(s: Embed, g: ExchangeReply, expiresAt: int): Embed
    requires g.Granted?
  {
    SetExpiry(s.(verifier := None, token := Some(g.token), timers := Without(s.timers, s.expiry),
                 status := Authorized, accountId := g.accountId, connections := g.connections, expiresAt := expiresAt,
                 selected := FirstChoice(s.context, g.connections)))
  }

  function GrantedSegment(s: Embed, g: ExchangeReply): Embed
    requires g.Granted?
  {
    if s.invalidContext || (s.context.Some? && !GrantedBy(s.context.value, g.accountId, g.connections))
      then StopAs(s, Denied)
    else
      var expiresAt := Min(g.expiresAt, s.now + 300000);
      if expiresAt <= s.now then StopAs(s, Expired) else RefreshSegment(Authorize(s, g, expiresAt), Some(s.generation))
  }

  function ExchangedSegment(s: Embed, id: CallId, exchange: ExchangeReply): Embed
    requires id in s.calls && s.calls[id].job.Exchanging?
  {
    var t := Finish(s, id);
    if s.calls[id].generation != s.generation then t
    else
      match exchange
      case Pending => SetPoll(t, Poll(s.calls[id].job.request, s.generation))
      case ExchangeFailed(refusal) =>
        if refusal == Some(429) then SetPoll(t, Poll(s.calls[id].job.request, s.generation)) else Fail(t, refusal)
      case Granted(_, _, _, _) => GrantedSegment(t, exchange)
  }

  function ScheduledSegment(s: Embed, id: CallId): Embed
    requires id in s.calls
  {
    var t := Finish(s, id);
    if s.calls[id].generation != s.generation || s.status != Authorized then t else SetPoll(t, HealthPoll(s.generation))
  }

  predicate Fresh(s: Embed, id: CallId)
    requires id in s.calls
  {
    s.calls[id].generation == s.generation && s.calls[id].selection == s.selection
  }

  /** When a refresh is over, the chain that awaited it goes on. */
  function RefreshOver(s: Embed, c: Call, id: CallId): Embed
    requires c.job.Refreshing?
  {
    match c.job.chain
    case Some(generation) => s.(calls := s.calls[id := Call(Scheduling, generation, c.selection)])
    case None => Finish(s, id)
  }

  function ApplyHealth(s: Embed, health: Health): Embed {
    if !health.pairAllowed || health.connected
    then s.(selection := s.selection + 1, health := Some(health), action := None, busy := false)
    else s.(health := Some(health))
  }

  function RefreshResult(s: Embed, id: string, report: HealthReply): Embed {
    if report.HealthFailed? then Fail(s, report.refusal)
    else
      var (t, active) := CheckActive(s);
      if !active then t
      else if report.BadHealth? || report.health.integrationId != id then Fail(t, None)
      else ApplyHealth(t, report.health)
  }

  function RefreshedSegment(s: Embed, id: CallId, report: HealthReply): Embed
    requires id in s.calls && s.calls[id].job.Refreshing?
  {
    var c := s.calls[id];
    RefreshOver(if Fresh(s, id) then RefreshResult(s, c.job.id, report) else s, c, id)
  }

  function PairSegment(s: Embed): Embed {
    var (t, active) := CheckActive(s);
    var chosen := FindConnection(t.connections, t.selected);
    if !active || t.busy || chosen.None? || !chosen.value.canPair then t
    else Launch(t.(busy := true, action := None), Pairing(t.selected))
  }

  function PairedSegment(s: Embed, id: CallId, offer: PairReply): Embed
    requires id in s.calls
  {
    var t := Finish(s, id);
    if !Fresh(s, id) then t
    else if offer.PairFailed? then Fail(t, offer.refusal)
    else
      var (u, active) := CheckActive(t);
      if !active then (if u.generation == s.generation then u.(busy := false) else u)
      else if offer.BadOffer? || (u.health.Some? && offer.instanceId != u.health.value.instanceId)
        || offer.action.leavesFrame
      then Fail(u, None)
      else
        var overdue := offer.action.expiresAt.Some? && offer.action.expiresAt.value <= s.now;
        u.(action := if overdue then None else Some(offer.action), busy := false)
  }

  function ContextSegment(s: Embed, context: Option<Context>): Embed {
    if context.Some? && context == s.context then s.(invalidContext := false)
    else
      var t := s.(invalidContext := context.None?, context := context, selection := s.selection + 1,
                  action := None, health := None, busy := false);
      if s.status != Authorized then t
      else if context.None? || !GrantedBy(context.value, s.accountId, s.connections) then StopAs(t, Denied)
      else t.(selected := FindInbox(s.connections, context.value.inboxId).value.integrationId)
  }

  function Selecting(s: Embed, id: string): Embed {
    s.(selection := s.selection + 1, selected := id, action := None, health := None, busy := false)
  }

  function SelectSegment(s: Embed, id: string): Embed {
    var (t, active) := CheckActive(s);
    var chosen := FindConnection(t.connections, id);
    if !active || chosen.None? then t
    else if t.context.Some? && chosen.value.inboxId != t.context.value.inboxId then t
    else RefreshSegment(Selecting(t, id), None)
  }

  function FireSegment(s: Embed, timer: TimerId): Embed
    requires timer in s.timers
  {
    var t := s.(timers := s.timers - {timer});
    match s.timers[timer]
    case Expiry => StopAs(t, Expired)
    case Poll(request, generation) => ExchangeSegment(t, request, generation)
    case HealthPoll(generation) => RefreshSegment(t, Some(generation))
  }

  // ----- the steps -----

  function Step(s: Embed, e: Event): Embed {
    match e
    case Stop(status) => StopAs(s, status)
    case Begin(verifier) => BeginSegment(s, verifier)
    case SetContext(context) => ContextSegment(s, context)
    case Select(id) => SelectSegment(s, id)
    case ClearAction => s.(action := None)
    case Refresh => RefreshSegment(s, None)
    case Pair => PairSegment(s)
    case Fire(timer) => if timer in s.timers then FireSegment(s, timer) else s
    case Advance(to) => if to >= s.now then s.(now := to) else s
    case Digested(id, ok) => if id in s.calls && s.calls[id].job == Digesting then DigestedSegment(s, id, ok) else s
    case Started(id, start) => if id in s.calls && s.calls[id].job == Beginning then StartedSegment(s, id, start) else s
    case Exchanged(id, exchange) =>
      if id in s.calls && s.calls[id].job.Exchanging? then ExchangedSegment(s, id, exchange) else s
    case Refreshed(id, report) =>
      if id in s.calls && s.calls[id].job.Refreshing? then RefreshedSegment(s, id, report) else s
    case Paired(id, offer) => if id in s.calls && s.calls[id].job.Pairing? then PairedSegment(s, id, offer) else s
    case Scheduled(id) => if id in s.calls && s.calls[id].job == Scheduling then ScheduledSegment(s, id) else s
  }

  function After(events: seq<Event>): Embed {
    if events == [] then INITIAL else Step(After(events[..|events| - 1]), events[|events| - 1])
  }
}
