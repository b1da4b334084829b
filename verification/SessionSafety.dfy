/** What every interleaving of session steps keeps. */
module SessionSafety {
  import opened Wrappers
  import opened SessionProtocol

  // ----- the invariant: one part per call, one per shared variable -----

  predicate Live(c: Call) {
    !c.phase.Settled?
  }

  /** A path is sent once, and once more only on retry. */
  ghost predicate SendsOk(c: Call) {
    && c.sent <= 2
    && (c.phase.Waiting? ==> c.retry.None?)
    && (c.phase.Queued? ==> c.sent == 0 && c.retry.None?)
    && (c.kind.Request? && c.retry.None? ==> c.sent == 1)
    && (c.kind == Switch && c.retry.None? ==> c.sent <= 1)
    && (c.kind == Switch && (c.phase.Fetching? || c.phase.Answered?) ==> c.sent >= 1)
    && (c.kind == Restore || c.kind == Select ==> c.sent == 1)
    && (c.kind == Logout ==> c.sent <= 1)
    && (c.phase.Draining? ==> c.sent == 0)
  }

  /** The phases each kind of call goes through. */
  ghost predicate PhaseOk(c: Call) {
    && (c.phase.Queued? ==> c.kind == Switch)
    && (c.phase.Draining? ==> c.kind == Logout)
    && (c.phase.Waiting? ==> c.kind == Switch || c.kind.Request?)
    && (c.phase.Finishing? ==> c.kind == Restore)
  }

  /** No captured value is from the future; a call of the current generation began after the last purge. */
  ghost predicate TimeOk(s: Session, c: Call) {
    && c.version <= s.version && c.generation <= s.generation && c.started <= s.clock && c.selects <= s.selects
    && (c.generation == s.generation ==> c.started >= s.purged)
  }

  /** A live restore is the flight; a live switch is queued, and at the head once begun; a live logout is counted. */
  ghost predicate ListedOk(s: Session, id: CallId, c: Call) {
    Live(c) ==>
      && (c.kind == Restore ==> s.flight == Some(Flight(id, c.version, c.generation)))
      && (c.kind == Switch ==> id in s.queue && (!c.phase.Queued? ==> s.queue[0] == id))
      && (c.kind == Logout ==> id in s.leaving)
  }

  ghost predicate CallOk(s: Session, id: CallId, c: Call) {
    id < s.nextId && SendsOk(c) && PhaseOk(c) && TimeOk(s, c) && ListedOk(s, id, c)
  }

  ghost predicate CallsOk(s: Session) {
    forall id <- s.calls :: CallOk(s, id, s.calls[id])
  }

  ghost predicate IsLive(s: Session, id: CallId, kind: Kind) {
    id in s.calls && s.calls[id].kind == kind && Live(s.calls[id])
  }

  ghost predicate SharedOk(s: Session) {
    && (s.flight.Some? ==> IsLive(s, s.flight.value.call, Restore))
    && (forall i, j | 0 <= i < j < |s.queue| :: s.queue[i] != s.queue[j])
    && (forall id <- s.queue :: IsLive(s, id, Switch))
    && (forall id <- s.leaving :: IsLive(s, id, Logout))
    && |s.leaving| == s.logouts
    && s.purged <= s.clock
  }

  /** Every expiry consumed a published token, and the token held was published too. */
  ghost predicate Accounted(s: Session) {
    s.expired + (if s.token.Some? then 1 else 0) <= s.published
  }

  ghost predicate Timely(s: Session) {
    forall l <- s.landings :: l.started >= l.purged
  }

  /** A live logout since whose begin no selection has published. */
  ghost predicate Undisturbed(s: Session, id: CallId) {
    id in s.leaving && id in s.calls && s.calls[id].selects == s.selects
  }

  /** Calls bound to the current generation that could still publish a token: restores, and switches that have begun. */
  ghost predicate CanPublish(s: Session, c: Call) {
    Live(c) && (c.kind == Restore || (c.kind == Switch && !c.phase.Queued?)) && c.generation == s.generation
  }

  ghost predicate NothingCanLand(s: Session) {
    s.token.None? && forall id <- s.calls :: !CanPublish(s, s.calls[id])
  }

  ghost predicate Quiet(s: Session) {
    (exists id :: Undisturbed(s, id)) ==> NothingCanLand(s)
  }

  ghost predicate Inv(s: Session) {
    CallsOk(s) && SharedOk(s) && Accounted(s) && Timely(s) && Quiet(s)
  }

  // ----- the edits a step is made of -----

  /** `s'` differs from `s` in call `id` and in shared variables that leave every other call in order. */
  lemma EditCalls(s: Session, s': Session, id: CallId, c': Call)
    requires CallsOk(s) && s'.calls == s.calls[id := c'] && CallOk(s', id, c')
    requires s'.nextId >= s.nextId && s'.version >= s.version && s'.generation == s.generation && s'.clock == s.clock
    requires s'.selects >= s.selects && s'.purged == s.purged
    requires s'.flight == s.flight || (s.flight.Some? && s.flight.value.call == id) || s.flight.None?
    requires s'.queue == s.queue || s'.queue == s.queue + [id]
      || (s.queue != [] && s.queue[0] == id && s'.queue == s.queue[1..])
    requires s'.leaving == s.leaving || s'.leaving == s.leaving - {id} || s'.leaving == s.leaving + {id}
    ensures CallsOk(s')
  {
    forall x <- s'.calls ensures CallOk(s', x, s'.calls[x]) {
      if x != id { assert CallOk(s, x, s.calls[x]); }
    }
  }

  /** An edit that adds no publisher keeps the promise to logouts. */
  lemma EditQuiet(s: Session, s': Session, id: CallId, c': Call)
    requires Quiet(s) && s'.calls == s.calls[id := c'] && s'.generation == s.generation && s'.selects == s.selects
    requires s.token.None? ==> s'.token.None?
    requires CanPublish(s', c') ==> id in s.calls && CanPublish(s, s.calls[id])
    requires s'.leaving <= s.leaving
    requires id in s.calls ==> c'.selects == s.calls[id].selects
    requires id !in s.calls ==> id !in s'.leaving
    ensures Quiet(s')
  {
    if x :| Undisturbed(s', x) {
      assert Undisturbed(s, x);
      forall y <- s'.calls ensures !CanPublish(s', s'.calls[y]) {
        if y != id { assert !CanPublish(s, s.calls[y]); }
      }
    }
  }

  lemma TickKeeps(s: Session)
    requires Inv(s)
    ensures Inv(Tick(s))
  {
    var s' := Tick(s);
    forall x <- s'.calls ensures CallOk(s', x, s'.calls[x]) { assert CallOk(s, x, s.calls[x]); }
    if x :| Undisturbed(s', x) {
      assert Undisturbed(s, x);
      forall y <- s'.calls ensures !CanPublish(s', s'.calls[y]) { assert !CanPublish(s, s.calls[y]); }
    }
  }

  /** Changing only the token, its version, and what is counted of it. */
  lemma TokenEdit(s: Session, s': Session)
    requires Inv(s)
    requires s' == s.(token := s'.token, version := s'.version, published := s'.published, expired := s'.expired,
      selects := s'.selects)
    requires s'.version >= s.version && s'.selects >= s.selects && Accounted(s')
    requires s'.token.None? || forall x :: !Undisturbed(s', x)
    ensures Inv(s')
  {
    forall x <- s'.calls ensures CallOk(s', x, s'.calls[x]) { assert CallOk(s, x, s.calls[x]); }
    if x :| Undisturbed(s', x) {
      assert Undisturbed(s, x);
      forall y <- s'.calls ensures !CanPublish(s', s'.calls[y]) { assert !CanPublish(s, s.calls[y]); }
    }
  }

  lemma PurgeKeeps(s: Session)
    requires Inv(s)
    ensures Inv(Purge(s))
  {
    var s' := Purge(s);
    forall x <- s'.calls ensures CallOk(s', x, s'.calls[x]) { assert CallOk(s, x, s.calls[x]); }
    if x :| Undisturbed(s', x) {
      assert Undisturbed(s, x);
      forall y <- s'.calls
        ensures !CanPublish(s', s'.calls[y])
      {
        assert !CanPublish(s, s.calls[y]) && CallOk(s, y, s.calls[y]);
      }
    }
  }

  lemma LandKeeps(s: Session, id: CallId)
    requires Inv(s) && id in s.calls && Current(s, id)
    ensures Inv(Land(s, id))
  {
    var s' := Land(s, id);
    assert CallOk(s, id, s.calls[id]);
    forall x <- s'.calls ensures CallOk(s', x, s'.calls[x]) { assert CallOk(s, x, s.calls[x]); }
    if x :| Undisturbed(s', x) {
      assert Undisturbed(s, x);
      forall y <- s'.calls ensures !CanPublish(s', s'.calls[y]) { assert !CanPublish(s, s.calls[y]); }
    }
  }

  /** A live call that has begun moves on within its own life. */
  ghost predicate MovesTo(s: Session, id: CallId, c': Call) {
    && id in s.calls
    && var c := s.calls[id];
       && Live(c) && !c.phase.Queued? && Live(c') && !c'.phase.Queued?
       && c' == c.(phase := c'.phase, version := c'.version, retry := c'.retry, retried := c'.retried, sent := c'.sent)
       && c'.version <= s.version && (c.kind == Restore ==> c'.version == c.version)
       && PhaseOk(c') && SendsOk(c')
  }

  lemma MoveKeeps(s: Session, id: CallId, c': Call)
    requires Inv(s) && MovesTo(s, id, c')
    ensures Inv(Put(s, id, c'))
  {
    var s' := Put(s, id, c');
    assert CallOk(s, id, s.calls[id]);
    EditCalls(s, s', id, c');
    EditQuiet(s, s', id, c');
    hide CallsOk, Quiet;
  }

  // ----- calls that end -----

  lemma SettleKeeps(s: Session, id: CallId, c': Call)
    requires Inv(s) && id in s.calls && (s.calls[id].kind.Request? || s.calls[id].kind == Select)
    requires c' == s.calls[id].(phase := c'.phase, retry := c'.retry) && c'.phase.Settled? && SendsOk(c')
    ensures Inv(Put(s, id, c'))
  {
    var s' := Put(s, id, c');
    assert CallOk(s, id, s.calls[id]);
    EditCalls(s, s', id, c');
    EditQuiet(s, s', id, c');
    hide CallsOk, Quiet;
  }

  lemma RestoreFinallyKeeps(s: Session, id: CallId, ending: Ending)
    requires Inv(s) && IsLive(s, id, Restore)
    ensures Inv(RestoreFinally(s, id, ending))
  {
    var s' := RestoreFinally(s, id, ending);
    assert CallOk(s, id, s.calls[id]);
    EditCalls(s, s', id, s'.calls[id]);
    EditQuiet(s, s', id, s'.calls[id]);
    hide CallsOk, Quiet;
  }

  lemma SwitchSettleKeeps(s: Session, id: CallId, ending: Ending)
    requires Inv(s) && IsLive(s, id, Switch) && s.queue != [] && s.queue[0] == id
    ensures Inv(SwitchSettle(s, id, ending))
  {
    var s' := SwitchSettle(s, id, ending);
    assert CallOk(s, id, s.calls[id]);
    assert s.queue == [id] + s'.queue;
    forall x <- s'.queue ensures IsLive(s', x, Switch) { assert x in s.queue && x != id; }
    EditCalls(s, s', id, s'.calls[id]);
    EditQuiet(s, s', id, s'.calls[id]);
    hide CallsOk, Quiet;
  }

  lemma LogoutFinishKeeps(s: Session, id: CallId, ending: Ending)
    requires Inv(s) && IsLive(s, id, Logout)
    ensures Inv(LogoutFinish(s, id, ending))
  {
    var s' := LogoutFinish(s, id, ending);
    assert CallOk(s, id, s.calls[id]);
    EditCalls(s, s', id, s'.calls[id]);
    EditQuiet(s, s', id, s'.calls[id]);
    hide CallsOk, Quiet;
    OneLessLive(s, s', id);
    hide SharedOk;
  }

  lemma OneLessLive(s: Session, s': Session, id: CallId)
    requires SharedOk(s) && IsLive(s, id, Logout) && id in s.leaving
    requires id in s'.calls && s'.calls == s.calls[id := s'.calls[id]]
    requires s'.flight == s.flight && s'.queue == s.queue && s'.leaving == s.leaving - {id}
    requires s'.logouts == (if s.logouts > 0 then s.logouts - 1 else 0) && s'.purged == s.purged && s'.clock == s.clock
    ensures SharedOk(s')
  {
    forall x, kind | x != id && IsLive(s, x, kind) ensures IsLive(s', x, kind) {}
    assert s.leaving == s'.leaving + {id};
  }

  // ----- calls that begin -----

  lemma SpawnRequestKeeps(s: Session, retriable: bool)
    requires Inv(s)
    ensures Inv(CallStep(s, CallRequest(retriable)))
  {
    var s' := CallStep(s, CallRequest(retriable));
    FreshId(s);
    EditCalls(s, s', s.nextId, s'.calls[s.nextId]);
    EditQuiet(s, s', s.nextId, s'.calls[s.nextId]);
    hide CallsOk, Quiet;
  }

  lemma FreshId(s: Session)
    requires Inv(s)
    ensures s.nextId !in s.calls && s.nextId !in s.leaving && s.nextId !in s.queue
  {
  }

  lemma SpawnSelectKeeps(s: Session)
    requires Inv(s)
    ensures Inv(CallStep(s, CallSelect))
  {
    var s' := CallStep(s, CallSelect);
    FreshId(s);
    EditCalls(s, s', s.nextId, s'.calls[s.nextId]);
    EditQuiet(s, s', s.nextId, s'.calls[s.nextId]);
    hide CallsOk, Quiet;
  }

  lemma SpawnSwitchKeeps(s: Session)
    requires Inv(s)
    ensures Inv(CallStep(s, CallSwitch))
  {
    if s.logouts == 0 {
      var s' := CallStep(s, CallSwitch);
      FreshId(s);
      EditCalls(s, s', s.nextId, s'.calls[s.nextId]);
      EditQuiet(s, s', s.nextId, s'.calls[s.nextId]);
      hide CallsOk, Quiet;
    }
  }

  /** After its purge a logout can only be disturbed by a select. */
  lemma PurgedIsQuiet(s: Session)
    requires Inv(s)
    ensures NothingCanLand(Discard(Purge(s)))
  {
    var s' := Discard(Purge(s));
    forall y <- s'.calls ensures !CanPublish(s', s'.calls[y]) { assert CallOk(s, y, s.calls[y]); }
  }

  lemma LogoutIsQuiet(s: Session)
    requires Inv(s)
    ensures Quiet(CallStep(s, CallLogout))
  {
    PurgedIsQuiet(s);
    FreshId(s);
    hide SharedOk, CallsOk, Accounted, Timely;
    var s1, s' := Discard(Purge(s)), CallStep(s, CallLogout);
    forall y <- s'.calls ensures !CanPublish(s', s'.calls[y]) {
      if y != s.nextId { assert !CanPublish(s1, s1.calls[y]); }
    }
  }

  lemma LogoutIsListed(s: Session)
    requires Inv(s)
    ensures CallsOk(CallStep(s, CallLogout))
  {
    FreshId(s);
    PurgeKeeps(s);
    var s' := CallStep(s, CallLogout);
    hide Quiet, SharedOk, CallsOk;
    EditCalls(Purge(s), s', s.nextId, s'.calls[s.nextId]);
  }

  lemma LogoutIsShared(s: Session)
    requires Inv(s)
    ensures SharedOk(CallStep(s, CallLogout))
  {
    FreshId(s);
    hide Quiet, CallsOk, Accounted, Timely;
    var s' := CallStep(s, CallLogout);
    var c := s'.calls[s.nextId];
    assert s'.calls == s.calls[s.nextId := c] && c.kind == Logout && Live(c);
    assert s'.flight == s.flight && s'.queue == s.queue && s'.leaving == s.leaving + {s.nextId};
    assert s'.logouts == s.logouts + 1 && s'.purged <= s'.clock;
    hide CallStep;
    OneMoreLive(s, s', s.nextId);
  }

  lemma OneMoreLive(s: Session, s': Session, id: CallId)
    requires SharedOk(s) && id !in s.calls && id !in s.leaving
    requires id in s'.calls && s'.calls == s.calls[id := s'.calls[id]] && s'.calls[id].kind == Logout
    requires Live(s'.calls[id])
    requires s'.flight == s.flight && s'.queue == s.queue && s'.leaving == s.leaving + {id}
    requires s'.logouts == s.logouts + 1 && s'.purged <= s'.clock
    ensures SharedOk(s')
  {
    forall x, kind | IsLive(s, x, kind) ensures IsLive(s', x, kind) {}
    assert IsLive(s', id, Logout);
  }

  lemma SpawnLogoutKeeps(s: Session)
    requires Inv(s)
    ensures Inv(CallStep(s, CallLogout))
  {
    LogoutIsQuiet(s);
    LogoutIsListed(s);
    LogoutIsShared(s);
    hide Quiet, CallsOk, SharedOk;
  }

  /** A restore starts only while no undisturbed logout is pending. */
  lemma SingleFlightKeeps(s: Session, version: nat, generation: nat)
    requires Inv(s) && generation <= s.generation && forall id :: !Undisturbed(s, id)
    ensures var (s', flight) := SingleFlight(s, version, generation);
      && Inv(s') && (forall id <- s.calls :: id in s'.calls && s'.calls[id] == s.calls[id])
      && s'.version == s.version && s'.queue == s.queue && s'.generation == s.generation
  {
    var s' := SingleFlight(s, version, generation).0;
    if s' != s {
      FreshId(s);
      EditCalls(s, s', s.nextId, s'.calls[s.nextId]);
      forall x ensures !Undisturbed(s', x) { assert !Undisturbed(s, x); }
      hide CallsOk;
    }
  }

  lemma SwitchRunKeeps(s: Session, id: CallId)
    requires Inv(s) && id in s.calls && s.calls[id].phase.Queued? && s.queue != [] && s.queue[0] == id
    ensures Inv(SwitchRun(s, id))
  {
    assert CallOk(s, id, s.calls[id]);
    if s.token.None? {
      SwitchSettleKeeps(s, id, Failed);
    } else {
      PurgeKeeps(s);
      var s1, s' := Purge(s), SwitchRun(s, id);
      EditCalls(s1, s', id, s'.calls[id]);
      forall x ensures !Undisturbed(s', x) { assert !Undisturbed(s, x); }
      hide CallsOk;
    }
  }

  // ----- the segments -----

  lemma PublisherDisturbs(s: Session, id: CallId)
    requires Inv(s) && id in s.calls && CanPublish(s, s.calls[id])
    ensures forall x :: !Undisturbed(s, x)
  {
  }

  lemma TokenDisturbs(s: Session)
    requires Inv(s) && s.token.Some?
    ensures forall x :: !Undisturbed(s, x)
  {
  }

  /** A live call of one of the kinds that a step can find in `phase`. */
  ghost predicate Runs(s: Session, id: CallId) {
    id in s.calls && Live(s.calls[id]) && !s.calls[id].phase.Queued?
  }

  lemma HeadRuns(s: Session, id: CallId)
    requires Inv(s) && Runs(s, id) && s.calls[id].kind == Switch
    ensures IsLive(s, id, Switch) && s.queue != [] && s.queue[0] == id
  {
    assert CallOk(s, id, s.calls[id]);
  }

  lemma PhaseMoveKeeps(s: Session, id: CallId, phase: Phase)
    requires Inv(s) && Runs(s, id)
    requires phase.Answered? || phase.ReadingError? || phase.ReadingBody? || phase.Waiting? || phase.Finishing?
    requires !s.calls[id].phase.Draining?
    requires phase.Answered? ==> s.calls[id].phase.Fetching?
    requires phase.Waiting? ==> s.calls[id].phase.Answered? && s.calls[id].retry.None?
    requires phase.Waiting? ==> s.calls[id].kind == Switch || s.calls[id].kind.Request?
    requires phase.Finishing? ==> s.calls[id].kind == Restore
    ensures Inv(To(s, id, phase))
  {
    assert CallOk(s, id, s.calls[id]);
    MoveKeeps(s, id, s.calls[id].(phase := phase));
    hide Inv;
  }

  lemma PhaseSettleKeeps(s: Session, id: CallId, ending: Ending)
    requires Inv(s) && Runs(s, id) && (s.calls[id].kind.Request? || s.calls[id].kind == Select)
    ensures Inv(To(s, id, Settled(ending)))
  {
    assert CallOk(s, id, s.calls[id]);
    SettleKeeps(s, id, s.calls[id].(phase := Settled(ending)));
    hide Inv;
  }

  lemma ExpireKeeps(s: Session)
    requires Inv(s)
    ensures Inv(Expire(s)) && Inv(Discard(s))
  {
    TokenEdit(s, Expire(s));
    TokenEdit(s, Discard(s));
    hide CallsOk, SharedOk, Timely, Quiet;
  }

  lemma PublicationKeeps(s: Session, id: CallId, token: Token)
    requires Inv(s) && id in s.calls && CanPublish(s, s.calls[id])
    ensures Inv(Land(Publish(s, token), id))
  {
    PublisherDisturbs(s, id);
    forall x ensures !Undisturbed(Publish(s, token), x) { assert !Undisturbed(s, x); }
    TokenEdit(s, Publish(s, token));
    hide Quiet, CallsOk, SharedOk, Timely;
    LandKeeps(Publish(s, token), id);
  }

  lemma RestoreReadKeeps(s: Session, id: CallId, content: Content)
    requires Inv(s) && Runs(s, id) && s.calls[id].kind == Restore && !s.calls[id].phase.Draining?
    ensures Inv(RestoreRead(s, id, content))
  {
    if Current(s, id) && content.Valid? && s.calls[id].version == s.version {
      PublicationKeeps(s, id, content.token);
      hide Inv;
      PhaseMoveKeeps(Land(Publish(s, content.token), id), id, Finishing(Fine));
    } else {
      hide Inv;
      PhaseMoveKeeps(s, id, Finishing(Stale));
      PhaseMoveKeeps(s, id, Finishing(Failed));
    }
  }

  lemma RequestParseKeeps(s: Session, id: CallId, status: nat)
    requires Inv(s) && Runs(s, id) && s.calls[id].kind.Request? && s.calls[id].phase.Answered?
    ensures Inv(RequestParse(s, id, status))
  {
    hide Inv;
    PhaseSettleKeeps(s, id, Stale);
    PhaseMoveKeeps(s, id, ReadingError(status));
    PhaseMoveKeeps(s, id, ReadingBody);
    if Current(s, id) {
      LandKeeps(s, id);
      PhaseSettleKeeps(Land(s, id), id, Fine);
    }
  }

  lemma RequestRetryKeeps(s: Session, id: CallId)
    requires Inv(s) && Runs(s, id) && s.calls[id].kind.Request? && s.calls[id].retry.None?
    ensures Inv(RequestRetry(s, id))
  {
    assert CallOk(s, id, s.calls[id]);
    var c := s.calls[id].(retry := Some(s.version));
    if Current(s, id) {
      MoveKeeps(s, id, c.(phase := Fetching, sent := c.sent + 1));
    } else {
      SettleKeeps(s, id, c.(phase := Settled(Stale)));
    }
    hide Inv;
  }

  lemma RequestAnsweredKeeps(s: Session, id: CallId, status: nat)
    requires Inv(s) && Runs(s, id) && s.calls[id].kind.Request? && s.calls[id].phase.Answered?
    ensures Inv(RequestAnswered(s, id, status))
  {
    var c := s.calls[id];
    if c.retry.Some? {
      ExpireKeeps(s);
      hide Inv;
      RequestParseKeeps(Expire(s), id, status);
      RequestParseKeeps(s, id, status);
    } else if status != 401 || !c.kind.retriable || s.token.None? {
      RequestParseKeeps(s, id, status);
    } else if c.version != s.version {
      RequestRetryKeeps(s, id);
    } else {
      TokenDisturbs(s);
      assert CallOk(s, id, c);
      SingleFlightKeeps(s, c.version, c.generation);
      var (s', flight) := SingleFlight(s, c.version, c.generation);
      hide Inv;
      if flight.None? { PhaseSettleKeeps(s, id, Stale); } else { PhaseMoveKeeps(s', id, Waiting(flight.value)); }
    }
  }

  lemma RequestResumedKeeps(s: Session, id: CallId, ending: Ending)
    requires Inv(s) && Runs(s, id) && s.calls[id].kind.Request? && s.calls[id].phase.Waiting?
    ensures Inv(RequestResumed(s, id, ending))
  {
    assert CallOk(s, id, s.calls[id]);
    ExpireKeeps(s);
    hide Inv;
    RequestRetryKeeps(s, id);
    PhaseSettleKeeps(s, id, Stale);
    PhaseSettleKeeps(Expire(s), id, Failed);
  }

  lemma RequestReadKeeps(s: Session, id: CallId, content: Content)
    requires Inv(s) && Runs(s, id) && s.calls[id].kind.Request?
    ensures Inv(RequestRead(s, id, content))
  {
    hide Inv;
    PhaseSettleKeeps(s, id, Stale);
    PhaseSettleKeeps(s, id, Failed);
    if Current(s, id) {
      LandKeeps(s, id);
      PhaseSettleKeeps(Land(s, id), id, Fine);
    }
  }

  lemma SwitchEndKeeps(s: Session, id: CallId, ending: Ending)
    requires Inv(s) && Runs(s, id) && s.calls[id].kind == Switch
    ensures Inv(SwitchSettle(s, id, ending)) && Inv(SwitchSettle(Expire(s), id, ending))
  {
    HeadRuns(s, id);
    ExpireKeeps(s);
    hide Inv;
    SwitchSettleKeeps(s, id, ending);
    SwitchSettleKeeps(Expire(s), id, ending);
  }

  lemma SwitchPostKeeps(s: Session, id: CallId)
    requires Inv(s) && Runs(s, id) && s.calls[id].kind == Switch && s.calls[id].sent == 0
    ensures Inv(SwitchPost(s, id))
  {
    assert CallOk(s, id, s.calls[id]);
    MoveKeeps(s, id, s.calls[id].(version := s.version, phase := Fetching, sent := 1));
    hide Inv;
  }

  lemma SwitchRetryKeeps(s: Session, id: CallId)
    requires Inv(s) && Runs(s, id) && s.calls[id].kind == Switch && s.calls[id].retry.None?
    ensures Inv(SwitchRetry(s, id))
  {
    hide Inv;
    var c := s.calls[id];
    var c' := c.(retried := c.version != s.version, retry := Some(s.version), phase := Fetching, sent := c.sent + 1);
    SwitchRetryMoves(s, id, c');
    MoveKeeps(s, id, c');
  }

  lemma SwitchRetryMoves(s: Session, id: CallId, c': Call)
    requires Inv(s) && Runs(s, id) && s.calls[id].kind == Switch && s.calls[id].retry.None?
    requires var c := s.calls[id];
      c' == c.(retried := c.version != s.version, retry := Some(s.version), phase := Fetching, sent := c.sent + 1)
    ensures MovesTo(s, id, c')
  {
    assert CallOk(s, id, s.calls[id]);
    hide Quiet;
  }

  lemma SwitchResumedKeeps(s: Session, id: CallId, ending: Ending)
    requires Inv(s) && Runs(s, id) && s.calls[id].kind == Switch && s.calls[id].phase.Waiting?
    ensures Inv(SwitchResumed(s, id, ending))
  {
    assert CallOk(s, id, s.calls[id]);
    hide Inv;
    SwitchEndKeeps(s, id, Failed);
    SwitchEndKeeps(s, id, Stale);
    if s.calls[id].sent == 0 { SwitchPostKeeps(s, id); }
    SwitchRetryKeeps(s, id);
  }

  lemma SwitchParseKeeps(s: Session, id: CallId, status: nat)
    requires Inv(s) && Runs(s, id) && s.calls[id].kind == Switch && s.calls[id].phase.Answered?
    ensures Inv(SwitchParse(s, id, status))
  {
    hide Inv;
    SwitchEndKeeps(s, id, Stale);
    SwitchEndKeeps(s, id, Failed);
    PhaseMoveKeeps(s, id, ReadingError(status));
    PhaseMoveKeeps(s, id, ReadingBody);
  }

  lemma SwitchAnsweredKeeps(s: Session, id: CallId, status: nat)
    requires Inv(s) && Runs(s, id) && s.calls[id].kind == Switch && s.calls[id].phase.Answered?
    ensures Inv(SwitchAnswered(s, id, status))
  {
    var c := s.calls[id];
    if c.retry.Some? {
      ExpireKeeps(s);
      hide Inv;
      SwitchParseKeeps(Expire(s), id, status);
      SwitchParseKeeps(s, id, status);
    } else if status != 401 || s.token.None? {
      SwitchParseKeeps(s, id, status);
    } else if c.version != s.version {
      SwitchRetryKeeps(s, id);
    } else {
      TokenDisturbs(s);
      assert CallOk(s, id, c);
      SingleFlightKeeps(s, c.version, c.generation);
      var (s', flight) := SingleFlight(s, c.version, c.generation);
      hide Inv;
      if flight.None? { SwitchEndKeeps(s, id, Stale); } else { PhaseMoveKeeps(s', id, Waiting(flight.value)); }
    }
  }

  lemma SwitchReadKeeps(s: Session, id: CallId, content: Content)
    requires Inv(s) && Runs(s, id) && s.calls[id].kind == Switch
    ensures Inv(SwitchRead(s, id, content))
  {
    if Current(s, id) && content.Valid? && !s.calls[id].phase.ReadingError? {
      PublicationKeeps(s, id, content.token);
      hide Inv;
      SwitchEndKeeps(Land(Publish(s, content.token), id), id, Fine);
    } else {
      hide Inv;
      SwitchEndKeeps(s, id, Stale);
      SwitchEndKeeps(s, id, Failed);
    }
  }

  lemma SelectReadKeeps(s: Session, id: CallId, content: Content)
    requires Inv(s) && Runs(s, id) && s.calls[id].kind == Select
    ensures Inv(SelectRead(s, id, content))
  {
    if s.calls[id].phase.ReadingBody? && content.Valid? {
      var s' := Publish(s, content.token).(selects := s.selects + 1);
      forall x ensures !Undisturbed(s', x) { if x in s.calls { assert CallOk(s, x, s.calls[x]); } }
      TokenEdit(s, s');
      hide Inv;
      PhaseSettleKeeps(s', id, Fine);
    } else {
      hide Inv;
      PhaseSettleKeeps(s, id, Failed);
    }
  }

  lemma LogoutDrainedKeeps(s: Session, id: CallId)
    requires Inv(s) && Runs(s, id) && s.calls[id].kind == Logout
    ensures Inv(LogoutDrained(s, id))
  {
    ExpireKeeps(s);
    assert CallOk(s, id, s.calls[id]);
    MoveKeeps(Discard(s), id, s.calls[id].(phase := Fetching, sent := 1));
    hide Inv;
  }

  // ----- every step keeps the invariant -----

  lemma AnswerStepKeeps(s: Session, id: CallId, reply: Reply)
    requires Inv(s)
    ensures Inv(AnswerStep(s, id, reply))
  {
    if id in s.calls && s.calls[id].phase.Fetching? {
      var kind := s.calls[id].kind;
      hide Inv;
      if reply.Status? { PhaseMoveKeeps(s, id, Answered(reply.code)); }
      match kind
      case Request(_) =>
        PhaseSettleKeeps(s, id, Stale);
        PhaseSettleKeeps(s, id, Failed);
      case Restore => PhaseMoveKeeps(s, id, Finishing(Failed));
      case Switch => SwitchEndKeeps(s, id, Failed);
      case Logout => LogoutFinishKeeps(s, id, Failed);
      case Select => PhaseSettleKeeps(s, id, Failed);
    }
  }

  lemma ReadStepKeeps(s: Session, id: CallId, content: Content)
    requires Inv(s)
    ensures Inv(ReadStep(s, id, content))
  {
    if id in s.calls && (s.calls[id].phase.ReadingBody? || s.calls[id].phase.ReadingError?) {
      hide Inv, RestoreRead, RequestRead, SwitchRead, SelectRead, LogoutFinish;
      var content := if s.calls[id].phase.ReadingError? && content.Valid? then Invalid else content;
      match s.calls[id].kind
      case Request(_) => RequestReadKeeps(s, id, content);
      case Restore => RestoreReadKeeps(s, id, content);
      case Switch => SwitchReadKeeps(s, id, content);
      case Select => SelectReadKeeps(s, id, content);
      case Logout =>
        LogoutFinishKeeps(s, id, if s.calls[id].phase.ReadingBody? && content.Valid? then Fine else Failed);
    }
  }

  lemma AnsweredStepKeeps(s: Session, id: CallId, status: nat)
    requires Inv(s) && id in s.calls && s.calls[id].phase.Answered?
    ensures Inv(AnsweredStep(s, id, status))
  {
    hide Inv, RequestAnswered, SwitchAnswered, LogoutFinish;
    match s.calls[id].kind
    case Request(_) => RequestAnsweredKeeps(s, id, status);
    case Switch => SwitchAnsweredKeeps(s, id, status);
    case Restore =>
      PhaseMoveKeeps(s, id, Finishing(Stale));
      PhaseMoveKeeps(s, id, Finishing(Failed));
      PhaseMoveKeeps(s, id, ReadingError(status));
      PhaseMoveKeeps(s, id, ReadingBody);
    case Select =>
      PhaseMoveKeeps(s, id, ReadingError(status));
      PhaseMoveKeeps(s, id, ReadingBody);
      PhaseSettleKeeps(s, id, Failed);
    case Logout =>
      PhaseMoveKeeps(s, id, ReadingError(status));
      PhaseMoveKeeps(s, id, ReadingBody);
      LogoutFinishKeeps(s, id, Fine);
  }

  lemma ResumeStepKeeps(s: Session, id: CallId)
    requires Inv(s)
    ensures Inv(ResumeStep(s, id))
  {
    if id in s.calls {
      var c := s.calls[id];
      assert CallOk(s, id, c);
      hide Inv, AnsweredStep, RestoreFinally, SwitchResumed, RequestResumed, SwitchRun, LogoutDrained, Over;
      match c.phase
      case Answered(status) => AnsweredStepKeeps(s, id, status);
      case Finishing(ending) => RestoreFinallyKeeps(s, id, ending);
      case Waiting(flight) =>
        if flight in s.calls && s.calls[flight].phase.Settled? {
          var ending := s.calls[flight].phase.ending;
          if c.kind == Switch { SwitchResumedKeeps(s, id, ending); } else { RequestResumedKeeps(s, id, ending); }
        }
      case Queued => if s.queue != [] && s.queue[0] == id { SwitchRunKeeps(s, id); }
      case Draining(switch, restore) => if Over(s, switch) && Over(s, restore) { LogoutDrainedKeeps(s, id); }
      case _ =>
    }
  }

  lemma CallStepKeeps(s: Session, e: Event)
    requires Inv(s)
    ensures Inv(CallStep(s, e))
  {
    match e
    case CallRequest(retriable) => SpawnRequestKeeps(s, retriable);
    case CallRestore => if s.logouts == 0 { NoLogoutNoQuiet(s); SingleFlightKeeps(s, s.version, s.generation); }
    case CallSwitch => SpawnSwitchKeeps(s);
    case CallSelect => SpawnSelectKeeps(s);
    case CallLogout => SpawnLogoutKeeps(s);
    case _ =>
  }

  lemma NoLogoutNoQuiet(s: Session)
    requires Inv(s) && s.logouts == 0
    ensures forall x :: !Undisturbed(s, x)
  {
  }

  lemma StepKeeps(s: Session, e: Event)
    requires Inv(s)
    ensures Inv(Step(s, e))
  {
    TickKeeps(s);
    hide Inv, AnswerStep, ReadStep, ResumeStep, CallStep;
    match e
    case Answer(id, reply) => AnswerStepKeeps(Tick(s), id, reply);
    case Read(id, content) => ReadStepKeeps(Tick(s), id, content);
    case Resume(id) => ResumeStepKeeps(Tick(s), id);
    case _ => CallStepKeeps(Tick(s), e);
  }

  /** The invariant holds after every run, whatever the order of answers and continuations. */
  lemma {:induction false} EveryRunKeeps(events: seq<Event>)
    ensures Inv(After(events))
  {
    hide Step;
    if events == [] {
    } else {
      EveryRunKeeps(events[..|events| - 1]);
      StepKeeps(After(events[..|events| - 1]), events[|events| - 1]);
    }
  }

  // ----- what that means to the caller -----

  /** At most one restore and at most one switch are on the wire. */
  lemma OneRestoreAndOneSwitchInFlight(events: seq<Event>, a: CallId, b: CallId)
    requires var s := After(events);
      && a in s.calls && b in s.calls && s.calls[a].phase.Fetching? && s.calls[b].phase.Fetching?
      && s.calls[a].kind == s.calls[b].kind && (s.calls[a].kind == Restore || s.calls[a].kind == Switch)
    ensures a == b
  {
    EveryRunKeeps(events);
    var s := After(events);
    assert CallOk(s, a, s.calls[a]) && CallOk(s, b, s.calls[b]);
  }

  /** No call sends its own path more than twice. */
  lemma NoPathIsSentThrice(events: seq<Event>, id: CallId)
    requires id in After(events).calls
    ensures After(events).calls[id].sent <= 2
  {
    EveryRunKeeps(events);
    assert CallOk(After(events), id, After(events).calls[id]);
  }

  /** Expiry listeners fire at most once for each token published, and not for one still held. */
  lemma ListenersFireOncePerToken(events: seq<Event>)
    ensures var s := After(events); s.expired + (if s.token.Some? then 1 else 0) <= s.published
  {
    EveryRunKeeps(events);
  }

  /** No body of a request and no token of a restore or switch lands after a purge that its call began before. */
  lemma NothingLandsAcrossAPurge(events: seq<Event>)
    ensures forall l <- After(events).landings :: l.started >= l.purged
  {
    EveryRunKeeps(events);
  }

  /**
   From its discard until it settles, a logout leaves no token behind, unless a selection has published since it began.
   */
  lemma LogoutKeepsTheTokenAway(events: seq<Event>, id: CallId)
    requires id in After(events).leaving
    ensures var s := After(events); id in s.calls && (s.token.Some? ==> s.selects > s.calls[id].selects)
  {
    EveryRunKeeps(events);
    var s := After(events);
    assert CallOk(s, id, s.calls[id]);
    assert s.token.Some? ==> !Undisturbed(s, id);
  }

  // ----- versions identify tokens -----

  ghost predicate Later(s: Session, s': Session) {
    s'.version >= s.version && (s'.version == s.version ==> s'.token == s.token)
  }

  lemma ReadsAreLater(s: Session, id: CallId, content: Content)
    requires id in s.calls
    ensures Later(s, RestoreRead(s, id, content)) && Later(s, RequestRead(s, id, content))
    ensures Later(s, SelectRead(s, id, content))
  {
  }

  lemma SwitchReadsAreLater(s: Session, id: CallId, content: Content)
    requires id in s.calls
    ensures Later(s, SwitchRead(s, id, content))
  {
  }

  lemma SettlementsAreLater(s: Session, id: CallId, ending: Ending)
    requires id in s.calls
    ensures Later(s, LogoutFinish(s, id, ending)) && Later(s, SwitchRun(s, id)) && Later(s, Unanswered(s, id))
    ensures Later(s, SwitchResumed(s, id, ending)) && Later(s, RequestResumed(s, id, ending))
    ensures Later(s, RestoreFinally(s, id, ending)) && Later(s, LogoutDrained(s, id))
  {
  }

  lemma AnswersAreLater(s: Session, id: CallId, status: nat)
    requires id in s.calls
    ensures Later(s, AnsweredStep(s, id, status))
  {
    hide RequestAnswered, SwitchAnswered;
    match s.calls[id].kind
    case Request(_) => RequestAnswersAreLater(s, id, status);
    case Switch => SwitchAnswersAreLater(s, id, status);
    case _ =>
  }

  lemma RequestAnswersAreLater(s: Session, id: CallId, status: nat)
    requires id in s.calls && s.calls[id].kind.Request?
    ensures Later(s, RequestAnswered(s, id, status))
  {
  }

  lemma SwitchAnswersAreLater(s: Session, id: CallId, status: nat)
    requires id in s.calls
    ensures Later(s, SwitchAnswered(s, id, status))
  {
    hide SwitchParse, SwitchRetry;
    SwitchParsesAreLater(s, id, status);
    SwitchParsesAreLater(Expire(s), id, status);
    SwitchRetriesAreLater(s, id);
  }

  lemma SwitchParsesAreLater(s: Session, id: CallId, status: nat)
    requires id in s.calls
    ensures Later(s, SwitchParse(s, id, status))
  {
  }

  lemma SwitchRetriesAreLater(s: Session, id: CallId)
    requires id in s.calls
    ensures Later(s, SwitchRetry(s, id))
  {
  }

  lemma ResumptionsAreLater(s: Session, id: CallId)
    ensures Later(s, ResumeStep(s, id))
  {
    hide SwitchRun, SwitchResumed, RequestResumed, RestoreFinally, LogoutDrained, AnsweredStep, Over;
    if id in s.calls {
      match s.calls[id].phase
      case Answered(status) => AnswersAreLater(s, id, status);
      case Finishing(ending) => SettlementsAreLater(s, id, ending);
      case Waiting(flight) =>
        if flight in s.calls && s.calls[flight].phase.Settled? {
          SettlementsAreLater(s, id, s.calls[flight].phase.ending);
        }
      case _ => SettlementsAreLater(s, id, Fine);
    }
  }

  lemma ReadStepIsLater(s: Session, id: CallId, content: Content)
    ensures Later(s, ReadStep(s, id, content))
  {
    hide RestoreRead, RequestRead, SwitchRead, SelectRead, LogoutFinish;
    if id in s.calls && (s.calls[id].phase.ReadingBody? || s.calls[id].phase.ReadingError?) {
      var content := if s.calls[id].phase.ReadingError? && content.Valid? then Invalid else content;
      ReadsAreLater(s, id, content);
      SwitchReadsAreLater(s, id, content);
      SettlementsAreLater(s, id, if s.calls[id].phase.ReadingBody? && content.Valid? then Fine else Failed);
    }
  }

  lemma StepIsLater(s: Session, e: Event)
    ensures Later(s, Step(s, e))
  {
    var t := Tick(s);
    hide ReadStep, ResumeStep, Unanswered;
    match e
    case Answer(id, reply) => if id in t.calls { SettlementsAreLater(t, id, Fine); }
    case Read(id, content) => ReadStepIsLater(t, id, content);
    case Resume(id) => ResumptionsAreLater(t, id);
    case _ =>
  }

  /** Along every run, equal token versions mean equal tokens. */
  lemma {:induction false} VersionIdentifiesToken(events: seq<Event>, more: seq<Event>)
    ensures Later(After(events), After(events + more))
    decreases |more|
  {
    hide Step;
    var all := events + more;
    if more == [] {
      assert all == events;
    } else {
      var init := more[..|more| - 1];
      VersionIdentifiesToken(events, init);
      assert all[..|all| - 1] == events + init;
      StepIsLater(After(events + init), all[|all| - 1]);
    }
  }
}
