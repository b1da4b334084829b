/**
 The browser session of apps/web/src/api/client.ts as a protocol: each stretch of code between two `await`s is one
 atomic step, and the network, the callers and the scheduler choose the order of the steps freely.
 */
module SessionProtocol {
  import opened Wrappers

  type Token = nat
  type CallId = nat

  datatype Kind = Restore | Request(retriable: bool) | Switch | Select | Logout

  /** How a promise ended: fulfilled, with `StaleTenantResponseError`, or with any other error. */
  datatype Ending = Fine | Stale | Failed

  datatype Phase =
    | Queued                                                       // a switch behind earlier switches
    | Waiting(flight: CallId)                                      // for the restore in flight
    | Draining(switch: Option<CallId>, restore: Option<CallId>)    // a logout, for what was pending
    | Fetching
    | Answered(status: nat)
    | ReadingError(status: nat)
    | ReadingBody
    | Finishing(ending: Ending)                                    // a restore, before its `finally`
    | Settled(ending: Ending)

  /** One call with the variables its continuation captured. */
  datatype Call = Call(
    kind: Kind, phase: Phase,
    version: nat, generation: nat,          // requestTokenVersion, generation
    retry: Option<nat>, retried: bool,      // retryTokenVersion, retriedAfterTokenChange
    sent: nat,                              // times its own path was sent
    started: nat, selects: nat)             // observations: when it began, and after how many selections

  datatype Flight = Flight(call: CallId, version: nat, generation: nat)

  /** A body or token that reached its caller: when its call began, and when the last purge was. */
  datatype Landing = Landing(started: nat, purged: nat)

  datatype Session = Session(
    token: Option<Token>, version: nat, generation: nat,
    flight: Option<Flight>, queue: seq<CallId>, logouts: nat,
    calls: map<CallId, Call>, nextId: CallId,
    clock: nat, purged: nat,                          // observations from here on
    published: nat, expired: nat, selects: nat,
    leaving: set<CallId>, landings: seq<Landing>)

  datatype Reply = Status(code: nat) | NoReply

  datatype Content = Valid(token: Token) | Invalid | Problem(preserved: bool)

  datatype Event =
    | CallRequest(retriable: bool) | CallRestore | CallSwitch | CallSelect | CallLogout
    | Answer(id: CallId, reply: Reply)       // a fetch settles
    | Read(id: CallId, content: Content)     // a response body has been read
    | Resume(id: CallId)                     // the scheduler runs a continuation

  const INITIAL := Session(None, 0, 0, None, [], 0, map[], 0, 0, 0, 0, 0, 0, {}, [])

  predicate Ok(status: nat) {
    200 <= status <= 299
  }

  // ----- the token, the generation, the table of calls -----

  function Expire(s: Session): Session {
    if s.token.None? then s else s.(token := None, version := s.version + 1, expired := s.expired + 1)
  }

  function Discard(s: Session): Session {
    if s.token.None? then s else s.(token := None, version := s.version + 1)
  }

  function Publish(s: Session, token: Token): Session {
    s.(token := Some(token), version := s.version + 1, published := s.published + 1)
  }

  function Purge(s: Session): Session {
    s.(generation := s.generation + 1, purged := s.clock)
  }

  function Put(s: Session, id: CallId, c: Call): Session {
    s.(calls := s.calls[id := c])
  }

  function To(s: Session, id: CallId, phase: Phase): Session
    requires id in s.calls
  {
    Put(s, id, s.calls[id].(phase := phase))
  }

  function NewCall(s: Session, kind: Kind, phase: Phase, sent: nat): Call {
    Call(kind, phase, s.version, s.generation, None, false, sent, s.clock, s.selects)
  }

  function Spawn(s: Session, c: Call): Session {
    Put(s, s.nextId, c).(nextId := s.nextId + 1)
  }

  function Land(s: Session, id: CallId): Session
    requires id in s.calls
  {
    s.(landings := s.landings + [Landing(s.calls[id].started, s.purged)])
  }

  predicate Current(s: Session, id: CallId)
    requires id in s.calls
  {
    s.calls[id].generation == s.generation
  }

  // ----- restore -----

  /** `singleFlightRestore`: the flight to wait for, or none when the caller is stale. */
  function SingleFlight(s: Session, version: nat, generation: nat): (Session, Option<CallId>) {
    if version != s.version then (s, None)
    else
      match s.flight
      case Some(f) => (s, if f.version == version && f.generation == generation then Some(f.call) else None)
      case None =>
        var c := NewCall(s, Restore, Fetching, 1).(generation := generation);
        (Spawn(s, c).(flight := Some(Flight(s.nextId, version, generation))), Some(s.nextId))
  }

  function RestoreAnswered(s: Session, id: CallId, status: nat): Session
    requires id in s.calls
  {
    if !Current(s, id) then To(s, id, Finishing(Stale))
    else if !Ok(status) then To(s, id, ReadingError(status))
    else if status == 204 then To(s, id, Finishing(Failed))
    else To(s, id, ReadingBody)
  }

  function RestoreRead(s: Session, id: CallId, content: Content): Session
    requires id in s.calls
  {
    if !Current(s, id) then To(s, id, Finishing(Stale))
    else if !content.Valid? then To(s, id, Finishing(Failed))
    else if s.calls[id].version != s.version then To(s, id, Finishing(Stale))
    else To(Land(Publish(s, content.token), id), id, Finishing(Fine))
  }

  /** The `finally` of the flight. */
  function RestoreFinally(s: Session, id: CallId, ending: Ending): Session
    requires id in s.calls
  {
    To(if s.flight.Some? && s.flight.value.call == id then s.(flight := None) else s, id, Settled(ending))
  }

  // ----- request -----

  function RequestFetched(s: Session, id: CallId, reply: Reply): Session
    requires id in s.calls
  {
    if !Current(s, id) then To(s, id, Settled(Stale))
    else match reply case NoReply => To(s, id, Settled(Failed)) case Status(code) => To(s, id, Answered(code))
  }

  function RequestParse(s: Session, id: CallId, status: nat): Session
    requires id in s.calls
  {
    if !Current(s, id) then To(s, id, Settled(Stale))
    else if !Ok(status) then To(s, id, ReadingError(status))
    else if status == 204 then To(Land(s, id), id, Settled(Fine))
    else To(s, id, ReadingBody)
  }

  function RequestRetry(s: Session, id: CallId): Session
    requires id in s.calls
  {
    var c := s.calls[id].(retry := Some(s.version));
    if !Current(s, id) then Put(s, id, c.(phase := Settled(Stale)))
    else Put(s, id, c.(phase := Fetching, sent := c.sent + 1))
  }

  function RequestAnswered(s: Session, id: CallId, status: nat): Session
    requires id in s.calls && s.calls[id].kind.Request?
  {
    var c := s.calls[id];
    if c.retry.Some? then
      RequestParse(if status == 401 && c.retry == Some(s.version) then Expire(s) else s, id, status)
    else if status != 401 || !c.kind.retriable || s.token.None? then RequestParse(s, id, status)
    else if c.version != s.version then RequestRetry(s, id)
    else
      var (s', flight) := SingleFlight(s, c.version, c.generation);
      if flight.None? then To(s, id, Settled(Stale)) else To(s', id, Waiting(flight.value))
  }

  function RequestResumed(s: Session, id: CallId, ending: Ending): Session
    requires id in s.calls
  {
    match ending
    case Fine => RequestRetry(s, id)
    case Stale => To(s, id, Settled(Stale))
    case Failed => if !Current(s, id) then To(s, id, Settled(Stale)) else To(Expire(s), id, Settled(Failed))
  }

  function RequestRead(s: Session, id: CallId, content: Content): Session
    requires id in s.calls
  {
    if !Current(s, id) then To(s, id, Settled(Stale))
    else if content.Valid? then To(Land(s, id), id, Settled(Fine))
    else To(s, id, Settled(Failed))
  }

  // ----- switch -----

  function SwitchSettle(s: Session, id: CallId, ending: Ending): Session
    requires id in s.calls
  {
    To(s, id, Settled(ending)).(queue := if s.queue != [] && s.queue[0] == id then s.queue[1..] else s.queue)
  }

  function SwitchPost(s: Session, id: CallId): Session
    requires id in s.calls
  {
    Put(s, id, s.calls[id].(version := s.version, phase := Fetching, sent := s.calls[id].sent + 1))
  }

  /** `run`, once every earlier switch has settled. */
  function SwitchRun(s: Session, id: CallId): Session
    requires id in s.calls
  {
    if s.token.None? then SwitchSettle(s, id, Failed)
    else
      var s' := Purge(s);
      var c := s.calls[id].(generation := s'.generation, started := s.clock);
      if s.flight.Some? then Put(s', id, c.(phase := Waiting(s.flight.value.call)))
      else SwitchPost(Put(s', id, c), id)
  }

  function SwitchRetry(s: Session, id: CallId): Session
    requires id in s.calls
  {
    var c := s.calls[id];
    Put(s, id, c.(retried := c.version != s.version, retry := Some(s.version), phase := Fetching, sent := c.sent + 1))
  }

  function SwitchResumed(s: Session, id: CallId, ending: Ending): Session
    requires id in s.calls
  {
    if s.calls[id].sent == 0 then
      if ending == Failed then SwitchSettle(Expire(s), id, Failed) else SwitchPost(s, id)
    else
      match ending
      case Fine => SwitchRetry(s, id)
      case Stale => SwitchSettle(s, id, Stale)
      case Failed => SwitchSettle(Expire(s), id, Failed)
  }

  /** After an unsuccessful response: `outcome` is what reading it threw. */
  function SwitchRejected(s: Session, id: CallId, status: nat, preserved: bool, outcome: Ending): Session
    requires id in s.calls
  {
    var c := s.calls[id];
    var owns := c.retry == Some(s.version);
    SwitchSettle(if status >= 500 || (status == 409 && !preserved) || (c.retried && owns) then Expire(s)
      else s, id, outcome)
  }

  function SwitchParse(s: Session, id: CallId, status: nat): Session
    requires id in s.calls
  {
    if !Ok(status) then
      if Current(s, id) then To(s, id, ReadingError(status)) else SwitchRejected(s, id, status, false, Stale)
    else if !Current(s, id) then SwitchSettle(Expire(s), id, Stale)
    else if status == 204 then SwitchSettle(Expire(s), id, Failed)
    else To(s, id, ReadingBody)
  }

  function SwitchAnswered(s: Session, id: CallId, status: nat): Session
    requires id in s.calls
  {
    var c := s.calls[id];
    if c.retry.Some? then
      SwitchParse(if status == 401 && c.retry == Some(s.version) then Expire(s) else s, id, status)
    else if status != 401 || s.token.None? then SwitchParse(s, id, status)
    else if c.version != s.version then SwitchRetry(s, id)
    else
      var (s', flight) := SingleFlight(s, c.version, c.generation);
      if flight.None? then SwitchSettle(s, id, Stale) else To(s', id, Waiting(flight.value))
  }

  function SwitchRead(s: Session, id: CallId, content: Content): Session
    requires id in s.calls
  {
    var c := s.calls[id];
    if c.phase.ReadingError? then
      if Current(s, id)
      then SwitchRejected(s, id, c.phase.status, c.phase.status == 409 && content == Problem(true), Failed)
      else SwitchRejected(s, id, c.phase.status, false, Stale)
    else if !Current(s, id) then SwitchSettle(Expire(s), id, Stale)
    else if !content.Valid? then SwitchSettle(Expire(s), id, Failed)
    else SwitchSettle(Land(Publish(s, content.token), id), id, Fine)
  }

  // ----- select and logout -----

  function SelectAnswered(s: Session, id: CallId, status: nat): Session
    requires id in s.calls
  {
    if !Ok(status) then To(s, id, ReadingError(status))
    else if status == 204 then To(s, id, Settled(Failed))
    else To(s, id, ReadingBody)
  }

  /** The new session is published unconditionally: a select carries no generation. */
  function SelectRead(s: Session, id: CallId, content: Content): Session
    requires id in s.calls
  {
    if s.calls[id].phase.ReadingBody? && content.Valid?
    then To(Publish(s, content.token).(selects := s.selects + 1), id, Settled(Fine))
    else To(s, id, Settled(Failed))
  }

  predicate Over(s: Session, id: Option<CallId>) {
    id.Some? ==> id.value in s.calls && s.calls[id.value].phase.Settled?
  }

  function LogoutDrained(s: Session, id: CallId): Session
    requires id in s.calls
  {
    Put(Discard(s), id, s.calls[id].(phase := Fetching, sent := 1))
  }

  /** The `finally` of a logout. */
  function LogoutFinish(s: Session, id: CallId, ending: Ending): Session
    requires id in s.calls
  {
    To(Discard(s), id, Settled(ending))
      .(logouts := if s.logouts > 0 then s.logouts - 1 else 0, leaving := s.leaving - {id})
  }

  // ----- the steps -----

  function Unanswered(s: Session, id: CallId): Session
    requires id in s.calls
  {
    match s.calls[id].kind
    case Restore => To(s, id, Finishing(Failed))
    case Switch => SwitchSettle(Expire(s), id, Failed)
    case Logout => LogoutFinish(s, id, Failed)
    case _ => To(s, id, Settled(Failed))
  }

  function AnswerStep(s: Session, id: CallId, reply: Reply): Session {
    if id !in s.calls || !s.calls[id].phase.Fetching? then s
    else if s.calls[id].kind.Request? then RequestFetched(s, id, reply)
    else match reply case Status(code) => To(s, id, Answered(code)) case NoReply => Unanswered(s, id)
  }

  function ReadStep(s: Session, id: CallId, content: Content): Session {
    if id !in s.calls || !(s.calls[id].phase.ReadingBody? || s.calls[id].phase.ReadingError?) then s
    else
      // A problem document never carries a result.
      var content := if s.calls[id].phase.ReadingError? && content.Valid? then Invalid else content;
      match s.calls[id].kind
      case Restore => RestoreRead(s, id, content)
      case Request(_) => RequestRead(s, id, content)
      case Switch => SwitchRead(s, id, content)
      case Select => SelectRead(s, id, content)
      case Logout => LogoutFinish(s, id, if s.calls[id].phase.ReadingBody? && content.Valid? then Fine else Failed)
  }

  function AnsweredStep(s: Session, id: CallId, status: nat): Session
    requires id in s.calls
  {
    match s.calls[id].kind
    case Restore => RestoreAnswered(s, id, status)
    case Request(_) => RequestAnswered(s, id, status)
    case Switch => SwitchAnswered(s, id, status)
    case Select => SelectAnswered(s, id, status)
    case Logout =>
      if !Ok(status) then To(s, id, ReadingError(status))
      else if status == 204 then LogoutFinish(s, id, Fine)
      else To(s, id, ReadingBody)
  }

  function ResumeStep(s: Session, id: CallId): Session {
    if id !in s.calls then s
    else
      var c := s.calls[id];
      match c.phase
      case Answered(status) => AnsweredStep(s, id, status)
      case Finishing(ending) => RestoreFinally(s, id, ending)
      case Waiting(flight) =>
        if flight in s.calls && s.calls[flight].phase.Settled? then
          var ending := s.calls[flight].phase.ending;
          if c.kind == Switch then SwitchResumed(s, id, ending) else RequestResumed(s, id, ending)
        else s
      case Queued => if s.queue != [] && s.queue[0] == id then SwitchRun(s, id) else s
      case Draining(switch, restore) => if Over(s, switch) && Over(s, restore) then LogoutDrained(s, id) else s
      case _ => s
  }

  function CallStep(s: Session, e: Event): Session {
    match e
    case CallRequest(retriable) => Spawn(s, NewCall(s, Request(retriable), Fetching, 1))
    case CallRestore => if s.logouts > 0 then s else SingleFlight(s, s.version, s.generation).0
    case CallSwitch =>
      if s.logouts > 0 then s
      else Spawn(s, NewCall(s, Switch, Queued, 0)).(queue := s.queue + [s.nextId])
    case CallSelect => Spawn(s, NewCall(s, Select, Fetching, 1))
    case CallLogout =>
      var tail := if s.queue == [] then None else Some(s.queue[|s.queue| - 1]);
      var restore := if s.flight.Some? then Some(s.flight.value.call) else None;
      var s' := Discard(Purge(s));
      Spawn(s', NewCall(s', Logout, Draining(tail, restore), 0)).(logouts := s.logouts + 1, leaving := s.leaving
        + {s.nextId})
    case _ => s
  }

  function Tick(s: Session): Session {
    s.(clock := s.clock + 1)
  }

  function Step(s: Session, e: Event): Session {
    var s := Tick(s);
    match e
    case Answer(id, reply) => AnswerStep(s, id, reply)
    case Read(id, content) => ReadStep(s, id, content)
    case Resume(id) => ResumeStep(s, id)
    case _ => CallStep(s, e)
  }

  /** The session after a run of events. */
  function After(events: seq<Event>): Session {
    if events == [] then INITIAL else Step(After(events[..|events| - 1]), events[|events| - 1])
  }
}
