/**
 The client object of apps/web/src/api/client.ts. Its variables are the fields; each method is one stretch of code
 between two `await`s and does to the fields what the protocol step of the same name does to the session.
 */
module ApiClient {
  import opened Wrappers
  import opened SessionProtocol
  import opened SessionSafety

  /** Counting the logout before or after its purge and discard makes no difference. */
  lemma DepartureCommutes(s: Session, logouts: nat, leaving: set<CallId>)
    ensures Discard(Purge(s.(logouts := logouts, leaving := leaving)))
      == Discard(Purge(s)).(logouts := logouts, leaving := leaving)
  {
  }

  class Client {
    var accessToken: Option<Token>
    var accessTokenVersion: nat
    var tenantGeneration: nat
    var restoreFlight: Option<Flight>
    var switchQueue: seq<CallId>
    var logoutOperations: nat
    var calls: map<CallId, Call>       // suspended continuations and settled promises
    var nextId: CallId
    var expirations: nat               // times the listeners were told
    // Observations, read by the properties only.
    var clock: nat
    var purged: nat
    var published: nat
    var selects: nat
    var leaving: set<CallId>
    var landings: seq<Landing>

    ghost function View(): Session
      reads this
    {
      Session(accessToken, accessTokenVersion, tenantGeneration, restoreFlight, switchQueue, logoutOperations,
              calls, nextId, clock, purged, published, expirations, selects, leaving, landings)
    }

    constructor ()
      ensures View() == INITIAL && Inv(View())
    {
      accessToken, accessTokenVersion, tenantGeneration, restoreFlight := None, 0, 0, None;
      switchQueue, logoutOperations, calls, nextId, expirations, selects := [], 0, map[], 0, 0, 0;
      clock, purged, published, leaving, landings := 0, 0, 0, {}, [];
      new;
      EveryRunKeeps([]);
    }

    // ----- the shared helpers -----

    method ExpireSession()
      modifies this
      ensures View() == Expire(old(View()))
    {
      if accessToken == None { return; }
      accessToken := None;
      accessTokenVersion := accessTokenVersion + 1;
      expirations := expirations + 1;
    }

    method DiscardAccessToken()
      modifies this
      ensures View() == Discard(old(View()))
    {
      if accessToken == None { return; }
      accessToken := None;
      accessTokenVersion := accessTokenVersion + 1;
    }

    method PublishAccessToken(token: Token)
      modifies this
      ensures View() == Publish(old(View()), token)
    {
      accessToken := Some(token);
      accessTokenVersion := accessTokenVersion + 1;
      published := published + 1;
    }

    method PurgeTenant() returns (generation: nat)
      modifies this
      ensures View() == Purge(old(View())) && generation == tenantGeneration
    {
      tenantGeneration := tenantGeneration + 1;
      purged := clock;
      generation := tenantGeneration;
    }

    method MoveTo(id: CallId, phase: Phase)
      requires id in calls
      modifies this
      ensures View() == To(old(View()), id, phase)
    {
      calls := calls[id := calls[id].(phase := phase)];
    }

    method Deliver(id: CallId)
      requires id in calls
      modifies this`landings
      ensures View() == Land(old(View()), id)
    {
      landings := landings + [Landing(calls[id].started, purged)];
    }

    method Begin(kind: Kind, phase: Phase, sent: nat, generation: nat) returns (id: CallId)
      modifies this
      ensures id == old(nextId)
      ensures View() == Spawn(old(View()), NewCall(old(View()), kind, phase, sent).(generation := generation))
    {
      id := nextId;
      calls := calls[id := Call(kind, phase, accessTokenVersion, generation, None, false, sent, clock, selects)];
      nextId := nextId + 1;
    }

    predicate Belongs(id: CallId)
      requires id in calls
      reads this
    {
      calls[id].generation == tenantGeneration
    }

    // ----- restore -----

    method SingleFlightRestore(version: nat, generation: nat) returns (flight: Option<CallId>)
      modifies this
      ensures (View(), flight) == SingleFlight(old(View()), version, generation)
    {
      if version != accessTokenVersion { return None; }
      if restoreFlight.Some? {
        if restoreFlight.value.version == version && restoreFlight.value.generation == generation {
          return Some(restoreFlight.value.call);
        }
        return None;
      }
      var id := Begin(Restore, Fetching, 1, generation);
      restoreFlight := Some(Flight(id, version, generation));
      return Some(id);
    }

    method RestoreContinues(id: CallId, content: Content)
      requires id in calls
      modifies this
      ensures View() == RestoreRead(old(View()), id, content)
    {
      if !Belongs(id) { MoveTo(id, Finishing(Stale)); return; }
      if !content.Valid? { MoveTo(id, Finishing(Failed)); return; }
      if calls[id].version != accessTokenVersion { MoveTo(id, Finishing(Stale)); return; }
      PublishAccessToken(content.token);
      Deliver(id);
      MoveTo(id, Finishing(Fine));
    }

    method RestoreEnds(id: CallId, ending: Ending)
      requires id in calls
      modifies this
      ensures View() == RestoreFinally(old(View()), id, ending)
    {
      if restoreFlight.Some? && restoreFlight.value.call == id { restoreFlight := None; }
      MoveTo(id, Settled(ending));
    }

    // ----- request -----

    method RequestParses(id: CallId, status: nat)
      requires id in calls
      modifies this
      ensures View() == RequestParse(old(View()), id, status)
    {
      if !Belongs(id) { MoveTo(id, Settled(Stale)); return; }
      if !Ok(status) { MoveTo(id, ReadingError(status)); return; }
      if status == 204 {
        Deliver(id);
        MoveTo(id, Settled(Fine));
      } else {
        MoveTo(id, ReadingBody);
      }
    }

    method RequestRetries(id: CallId)
      requires id in calls
      modifies this
      ensures View() == RequestRetry(old(View()), id)
    {
      calls := calls[id := calls[id].(retry := Some(accessTokenVersion))];
      if !Belongs(id) { MoveTo(id, Settled(Stale)); return; }
      calls := calls[id := calls[id].(phase := Fetching, sent := calls[id].sent + 1)];
    }

    method RequestIsAnswered(id: CallId, status: nat)
      requires id in calls && calls[id].kind.Request?
      modifies this
      ensures View() == RequestAnswered(old(View()), id, status)
    {
      hide RequestParse, RequestRetry;
      var c := calls[id];
      if c.retry.Some? {
        if status == 401 && c.retry == Some(accessTokenVersion) { ExpireSession(); }
        RequestParses(id, status);
        return;
      }
      if status != 401 || !c.kind.retriable || accessToken == None { RequestParses(id, status); return; }
      if c.version != accessTokenVersion { RequestRetries(id); return; }
      var flight := SingleFlightRestore(c.version, c.generation);
      if flight == None { MoveTo(id, Settled(Stale)); } else { MoveTo(id, Waiting(flight.value)); }
    }

    method RequestContinues(id: CallId, ending: Ending)
      requires id in calls
      modifies this
      ensures View() == RequestResumed(old(View()), id, ending)
    {
      if ending == Fine { RequestRetries(id); return; }
      if ending == Stale || !Belongs(id) { MoveTo(id, Settled(Stale)); return; }
      ExpireSession();
      MoveTo(id, Settled(Failed));
    }

    method RequestReads(id: CallId, content: Content)
      requires id in calls
      modifies this
      ensures View() == RequestRead(old(View()), id, content)
    {
      if !Belongs(id) { MoveTo(id, Settled(Stale)); return; }
      if content.Valid? {
        Deliver(id);
        MoveTo(id, Settled(Fine));
      } else {
        MoveTo(id, Settled(Failed));
      }
    }

    // ----- switch -----

    method SwitchEnds(id: CallId, ending: Ending)
      requires id in calls
      modifies this
      ensures View() == SwitchSettle(old(View()), id, ending)
    {
      MoveTo(id, Settled(ending));
      if switchQueue != [] && switchQueue[0] == id { switchQueue := switchQueue[1..]; }
    }

    method SwitchExpires(id: CallId, ending: Ending)
      requires id in calls
      modifies this
      ensures View() == SwitchSettle(Expire(old(View())), id, ending)
    {
      ExpireSession();
      SwitchEnds(id, ending);
    }

    method SwitchPosts(id: CallId)
      requires id in calls
      modifies this
      ensures View() == SwitchPost(old(View()), id)
    {
      calls := calls[id := calls[id].(version := accessTokenVersion, phase := Fetching, sent := calls[id].sent + 1)];
    }

    method SwitchRuns(id: CallId)
      requires id in calls
      modifies this
      ensures View() == SwitchRun(old(View()), id)
    {
      if accessToken == None { SwitchEnds(id, Failed); return; }
      var pendingRestore := restoreFlight;
      var generation := PurgeTenant();
      calls := calls[id := calls[id].(generation := generation, started := clock)];
      if pendingRestore.Some? { MoveTo(id, Waiting(pendingRestore.value.call)); } else { SwitchPosts(id); }
    }

    method SwitchRetries(id: CallId)
      requires id in calls
      modifies this
      ensures View() == SwitchRetry(old(View()), id)
    {
      var c := calls[id];
      calls := calls[id := c.(retried := c.version != accessTokenVersion, retry := Some(accessTokenVersion),
                              phase := Fetching, sent := c.sent + 1)];
    }

    method SwitchContinues(id: CallId, ending: Ending)
      requires id in calls
      modifies this
      ensures View() == SwitchResumed(old(View()), id, ending)
    {
      if calls[id].sent == 0 {
        if ending == Failed { SwitchExpires(id, Failed); } else { SwitchPosts(id); }
        return;
      }
      match ending
      case Fine => SwitchRetries(id);
      case Stale => SwitchEnds(id, Stale);
      case Failed => SwitchExpires(id, Failed);
    }

    method SwitchIsRejected(id: CallId, status: nat, preserved: bool, outcome: Ending)
      requires id in calls
      modifies this
      ensures View() == SwitchRejected(old(View()), id, status, preserved, outcome)
    {
      var c := calls[id];
      var retryStillOwnsToken := c.retry == Some(accessTokenVersion);
      if status >= 500 || (status == 409 && !preserved) || (c.retried && retryStillOwnsToken) { ExpireSession(); }
      SwitchEnds(id, outcome);
    }

    method SwitchParses(id: CallId, status: nat)
      requires id in calls
      modifies this
      ensures View() == SwitchParse(old(View()), id, status)
    {
      hide SwitchRejected, SwitchSettle;
      if !Ok(status) {
        if Belongs(id) { MoveTo(id, ReadingError(status)); } else { SwitchIsRejected(id, status, false, Stale); }
      } else if !Belongs(id) {
        SwitchExpires(id, Stale);
      } else if status == 204 {
        SwitchExpires(id, Failed);
      } else {
        MoveTo(id, ReadingBody);
      }
    }

    method SwitchIsAnswered(id: CallId, status: nat)
      requires id in calls
      modifies this
      ensures View() == SwitchAnswered(old(View()), id, status)
    {
      hide SwitchParse, SwitchRetry, SwitchSettle;
      var c := calls[id];
      if c.retry.Some? {
        if status == 401 && c.retry == Some(accessTokenVersion) { ExpireSession(); }
        SwitchParses(id, status);
        return;
      }
      if status != 401 || accessToken == None { SwitchParses(id, status); return; }
      if c.version != accessTokenVersion { SwitchRetries(id); return; }
      var flight := SingleFlightRestore(c.version, c.generation);
      if flight == None { SwitchEnds(id, Stale); } else { MoveTo(id, Waiting(flight.value)); }
    }

    method SwitchReads(id: CallId, content: Content)
      requires id in calls
      modifies this
      ensures View() == SwitchRead(old(View()), id, content)
    {
      hide SwitchRejected;
      var c := calls[id];
      if c.phase.ReadingError? {
        if Belongs(id) {
          SwitchIsRejected(id, c.phase.status, c.phase.status == 409 && content == Problem(true), Failed);
        } else {
          SwitchIsRejected(id, c.phase.status, false, Stale);
        }
      } else if !Belongs(id) {
        SwitchExpires(id, Stale);
      } else if !content.Valid? {
        SwitchExpires(id, Failed);
      } else {
        PublishAccessToken(content.token);
        Deliver(id);
        SwitchEnds(id, Fine);
      }
    }

    // ----- logout -----

    method LogoutContinues(id: CallId)
      requires id in calls
      modifies this
      ensures View() == LogoutDrained(old(View()), id)
    {
      DiscardAccessToken();
      calls := calls[id := calls[id].(phase := Fetching, sent := 1)];
    }

    method LogoutEnds(id: CallId, ending: Ending)
      requires id in calls
      modifies this
      ensures View() == LogoutFinish(old(View()), id, ending)
    {
      DiscardAccessToken();
      if logoutOperations > 0 { logoutOperations := logoutOperations - 1; }
      leaving := leaving - {id};
      MoveTo(id, Settled(ending));
    }

    // ----- the public calls -----

    method Restores()
      modifies this
      ensures View() == CallStep(old(View()), CallRestore)
    {
      if logoutOperations > 0 { return; }
      var flight := SingleFlightRestore(accessTokenVersion, tenantGeneration);
    }

    method SwitchOrganization()
      modifies this
      ensures View() == CallStep(old(View()), CallSwitch)
    {
      if logoutOperations > 0 { return; }
      var id := Begin(Switch, Queued, 0, tenantGeneration);
      switchQueue := switchQueue + [id];
    }

    method Logout()
      modifies this
      ensures View() == CallStep(old(View()), CallLogout)
    {
      hide Discard, Purge;
      var pendingRestore := if restoreFlight.Some? then Some(restoreFlight.value.call) else None;
      var pendingSwitch := if switchQueue == [] then None else Some(switchQueue[|switchQueue| - 1]);
      logoutOperations, leaving := logoutOperations + 1, leaving + {nextId};
      DepartureCommutes(old(View()), logoutOperations, leaving);
      var _ := PurgeTenant();
      DiscardAccessToken();
      var _ := Begin(SessionProtocol.Logout, Draining(pendingSwitch, pendingRestore), 0, tenantGeneration);
    }

    // ----- the event loop -----

    method FetchSettles(id: CallId, reply: Reply)
      modifies this
      ensures View() == AnswerStep(old(View()), id, reply)
    {
      hide LogoutFinish, SwitchSettle;
      if id !in calls || !calls[id].phase.Fetching? { return; }
      if calls[id].kind.Request? {
        if !Belongs(id) { MoveTo(id, Settled(Stale)); return; }
        if reply == NoReply { MoveTo(id, Settled(Failed)); } else { MoveTo(id, Answered(reply.code)); }
        return;
      }
      if reply.Status? { MoveTo(id, Answered(reply.code)); return; }
      var kind := calls[id].kind;
      if kind == Restore {
        MoveTo(id, Finishing(Failed));
      } else if kind == Switch {
        SwitchExpires(id, Failed);
      } else if kind.Logout? {
        LogoutEnds(id, Failed);
      } else {
        MoveTo(id, Settled(Failed));
      }
    }

    method BodyIsRead(id: CallId, content: Content)
      modifies this
      ensures View() == ReadStep(old(View()), id, content)
    {
      hide LogoutFinish, SwitchRead, RequestRead, RestoreRead;
      if id !in calls || !(calls[id].phase.ReadingBody? || calls[id].phase.ReadingError?) { return; }
      var phase := calls[id].phase;
      var content := if phase.ReadingError? && content.Valid? then Invalid else content;
      match calls[id].kind
      case Restore => RestoreContinues(id, content);
      case Request(_) => RequestReads(id, content);
      case Switch => SwitchReads(id, content);
      case Select =>
        if phase.ReadingBody? && content.Valid? {
          PublishAccessToken(content.token);
          selects := selects + 1;
          MoveTo(id, Settled(Fine));
        } else {
          MoveTo(id, Settled(Failed));
        }
      case Logout => LogoutEnds(id, if phase.ReadingBody? && content.Valid? then Fine else Failed);
    }

    method ResponseArrives(id: CallId, status: nat)
      requires id in calls
      modifies this
      ensures View() == AnsweredStep(old(View()), id, status)
    {
      hide LogoutFinish, SwitchAnswered, RequestAnswered;
      match calls[id].kind
      case Request(_) => RequestIsAnswered(id, status);
      case Switch => SwitchIsAnswered(id, status);
      case Restore =>
        if !Belongs(id) { MoveTo(id, Finishing(Stale)); }
        else if !Ok(status) { MoveTo(id, ReadingError(status)); }
        else if status == 204 { MoveTo(id, Finishing(Failed)); }
        else { MoveTo(id, ReadingBody); }
      case Select =>
        if !Ok(status) { MoveTo(id, ReadingError(status)); }
        else if status == 204 { MoveTo(id, Settled(Failed)); }
        else { MoveTo(id, ReadingBody); }
      case Logout =>
        if !Ok(status) { MoveTo(id, ReadingError(status)); }
        else if status == 204 { LogoutEnds(id, Fine); }
        else { MoveTo(id, ReadingBody); }
    }

    method Continues(id: CallId)
      modifies this
      ensures View() == ResumeStep(old(View()), id)
    {
      hide AnsweredStep, RestoreFinally, SwitchResumed, RequestResumed, SwitchRun, LogoutDrained;
      if id !in calls { return; }
      var c := calls[id];
      match c.phase
      case Answered(status) => ResponseArrives(id, status);
      case Finishing(ending) => RestoreEnds(id, ending);
      case Waiting(flight) =>
        if flight in calls && calls[flight].phase.Settled? {
          var ending := calls[flight].phase.ending;
          if c.kind == Switch { SwitchContinues(id, ending); } else { RequestContinues(id, ending); }
        }
      case Queued => if switchQueue != [] && switchQueue[0] == id { SwitchRuns(id); }
      case Draining(switch, restore) =>
        if (switch.Some? ==> switch.value in calls && calls[switch.value].phase.Settled?)
          && (restore.Some? ==> restore.value in calls && calls[restore.value].phase.Settled?) {
          LogoutContinues(id);
        }
      case _ =>
    }

    /** One event, in any order the world chooses: the object follows the protocol and keeps its invariant. */
    method Handle(e: Event)
      requires Inv(View())
      modifies this
      ensures View() == Step(old(View()), e) && Inv(View())
    {
      ghost var before := View();
      StepKeeps(before, e);
      hide Inv, AnswerStep, ReadStep, ResumeStep, CallStep;
      clock := clock + 1;
      assert View() == Tick(before);
      hide Tick;
      match e
      case Answer(id, reply) => FetchSettles(id, reply);
      case Read(id, content) => BodyIsRead(id, content);
      case Resume(id) => Continues(id);
      case CallRestore => Restores();
      case CallSwitch => SwitchOrganization();
      case CallLogout => Logout();
      case CallRequest(retriable) => Requests(retriable);
      case CallSelect => SelectOrganization();
    }

    method Requests(retriable: bool)
      modifies this
      ensures View() == CallStep(old(View()), CallRequest(retriable))
    {
      var _ := Begin(Request(retriable), Fetching, 1, tenantGeneration);
    }

    method SelectOrganization()
      modifies this
      ensures View() == CallStep(old(View()), CallSelect)
    {
      var _ := Begin(Select, Fetching, 1, tenantGeneration);
    }
  }
}
