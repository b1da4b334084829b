/** Promises that the session client does not make, each shown by a run, and what it promises instead. */
module SessionTraps {
  import opened Wrappers
  import opened SessionProtocol
  import opened SessionSafety
  import opened SessionFacts

  lemma OneMore(events: seq<Event>, e: Event)
    ensures After(events + [e]) == Step(After(events), e)
  {
    var all := events + [e];
    assert all[..|all| - 1] == events;
  }

  /** A whole select: sent, answered, read. */
  function Selected(id: CallId, token: Token): seq<Event> {
    [Answer(id, Status(200)), Resume(id), Read(id, Valid(token))]
  }

  lemma SelectPublishes(events: seq<Event>, id: CallId, token: Token)
    requires var s := After(events); id in s.calls && s.calls[id].kind == Select && s.calls[id].phase.Fetching?
    ensures After(events + Selected(id, token)) ==
      (var s := After(events);
       Put(Publish(s, token), id, s.calls[id].(phase := Settled(Fine))).(clock := s.clock + 3, selects := s.selects
         + 1))
  {
    hide After, Step;
    var s := After(events);
    var e1, e2 := events + [Answer(id, Status(200))], events + [Answer(id, Status(200))] + [Resume(id)];
    OneMore(events, Answer(id, Status(200)));
    OneMore(e1, Resume(id));
    OneMore(e2, Read(id, Valid(token)));
    assert events + Selected(id, token) == e2 + [Read(id, Valid(token))];
    SelectSteps(s, id, token);
  }

  lemma SelectSteps(s: Session, id: CallId, token: Token)
    requires id in s.calls && s.calls[id].kind == Select && s.calls[id].phase.Fetching?
    ensures Step(Step(Step(s, Answer(id, Status(200))), Resume(id)), Read(id, Valid(token)))
      == Put(Publish(s, token), id, s.calls[id].(phase := Settled(Fine))).(clock := s.clock + 3, selects := s.selects
        + 1)
  {
    var s1 := Step(s, Answer(id, Status(200)));
    assert s1 == Put(Tick(s), id, s.calls[id].(phase := Answered(200)));
    var s2 := Step(s1, Resume(id));
    assert s2 == Put(Tick(s1), id, s.calls[id].(phase := ReadingBody));
    assert s2.calls[id := s.calls[id].(phase := Settled(Fine))] == s.calls[id := s.calls[id].(phase := Settled(Fine))];
  }

  /** A select carries no generation: one that was pending when a logout began publishes its token during the logout. */
  lemma SelectLandsDuringLogout()
    ensures var s := After([CallSelect] + [CallLogout] + Selected(0, 7));
      0 in s.calls && s.logouts == 1 && s.token == Some(7) && s.calls[0].started < s.purged
  {
    hide After;
    assert After([]) == INITIAL by { NothingYet(); }
    assert [CallSelect] == [] + [CallSelect];
    OneMore([], CallSelect);
    OneMore([CallSelect], CallLogout);
    SelectPublishes([CallSelect] + [CallLogout], 0, 7);
  }

  const DISTURBED: seq<Event> := [CallSelect] + [CallLogout] + Selected(0, 7)

  const RESTORING: seq<Event> := DISTURBED + [CallRequest(true)] + [Answer(2, Status(401))] + [Resume(2)]

  lemma DisturbedRun()
    ensures var s := After(DISTURBED);
      && s.logouts == 1 && s.token == Some(7) && s.selects == 1 && s.flight == None && s.nextId == 2
  {
    hide After;
    assert After([]) == INITIAL by { NothingYet(); }
    assert [CallSelect] == [] + [CallSelect];
    OneMore([], CallSelect);
    OneMore([CallSelect], CallLogout);
    SelectPublishes([CallSelect] + [CallLogout], 0, 7);
  }

  /** A selection has published during the logout, and a request has started a restore for the new token. */
  lemma RestoringRun()
    ensures var s := After(RESTORING);
      && s.logouts == 1 && s.token == Some(7) && s.selects == 1 && 3 in s.calls
      && s.calls[3].kind == Restore && s.calls[3].phase == Fetching
      && s.calls[3].version == s.version && s.calls[3].generation == s.generation
  {
    hide After;
    DisturbedRun();
    OneMore(DISTURBED, CallRequest(true));
    OneMore(DISTURBED + [CallRequest(true)], Answer(2, Status(401)));
    OneMore(DISTURBED + [CallRequest(true)] + [Answer(2, Status(401))], Resume(2));
  }

  /** Once a selection has published, a restore can publish during the same logout too. */
  lemma RestoreLandsDuringDisturbedLogout()
    ensures var s := After(RESTORING + [Answer(3, Status(200))] + [Resume(3)]);
      3 in s.calls && s.calls[3].kind == Restore && s.calls[3].phase == ReadingBody && s.logouts == 1 && s.selects == 1
    ensures var s := After(RESTORING + [Answer(3, Status(200))] + [Resume(3)] + [Read(3, Valid(9))]);
      s.token == Some(9) && s.logouts == 1 && s.selects == 1
  {
    hide After;
    RestoringRun();
    OneMore(RESTORING, Answer(3, Status(200)));
    OneMore(RESTORING + [Answer(3, Status(200))], Resume(3));
    OneMore(RESTORING + [Answer(3, Status(200))] + [Resume(3)], Read(3, Valid(9)));
  }

  lemma NothingYet()
    ensures After([]) == INITIAL
  {
  }

  lemma FirstTokenRun()
    ensures var s := After([CallSelect] + Selected(0, 1));
      && s.token == Some(1) && s.version == 1 && s.generation == 0 && s.expired == 0 && s.flight == None
      && s.queue == [] && s.logouts == 0 && s.nextId == 1 && s.clock == 4 && s.purged == 0
  {
    hide After;
    assert After([]) == INITIAL by { NothingYet(); }
    assert [CallSelect] == [] + [CallSelect];
    OneMore([], CallSelect);
    SelectPublishes([CallSelect], 0, 1);
  }

  const OUTDATED: seq<Event> :=
    [CallSelect] + Selected(0, 1) + [CallRequest(true)] + [CallSelect] + [Answer(1, Status(401))] + [Resume(1)]

  const OVERTAKEN: seq<Event> := OUTDATED + Selected(2, 2) + [Answer(3, NoReply)] + [Resume(3)]

  /** A request holds the first token, its restore is in flight, and a second select is pending. */
  lemma OutdatedRun()
    ensures var s := After(OUTDATED);
      && s.token == Some(1) && s.version == 1 && s.generation == 0 && s.expired == 0
      && s.flight == Some(Flight(3, 1, 0)) && 1 in s.calls && 2 in s.calls && 3 in s.calls
      && s.calls[1].kind == Request(true) && s.calls[1].phase == Waiting(3) && s.calls[1].version == 1
      && s.calls[1].generation == 0
      && s.calls[2].kind == Select && s.calls[2].phase == Fetching
      && s.calls[3].kind == Restore && s.calls[3].phase == Fetching
  {
    hide After;
    FirstTokenRun();
    var e1 := [CallSelect] + Selected(0, 1);
    OneMore(e1, CallRequest(true));
    OneMore(e1 + [CallRequest(true)], CallSelect);
    OneMore(e1 + [CallRequest(true)] + [CallSelect], Answer(1, Status(401)));
    OneMore(e1 + [CallRequest(true)] + [CallSelect] + [Answer(1, Status(401))], Resume(1));
  }

  lemma OvertakenRun()
    ensures var s := After(OVERTAKEN);
      && s.token == Some(2) && s.version == 2 && s.generation == 0 && s.expired == 0
      && 1 in s.calls && 3 in s.calls && s.calls[1].kind == Request(true) && s.calls[1].phase == Waiting(3)
      && s.calls[1].version == 1 && s.calls[1].generation == 0 && s.calls[3].phase == Settled(Failed)
  {
    hide After;
    OutdatedRun();
    SelectPublishes(OUTDATED, 2, 2);
    OneMore(OUTDATED + Selected(2, 2), Answer(3, NoReply));
    OneMore(OUTDATED + Selected(2, 2) + [Answer(3, NoReply)], Resume(3));
  }

  /** The restore of an outdated token fails, and the newer token is expired for it. */
  lemma FailedRestoreExpiresNewerToken()
    ensures var s := After(OVERTAKEN); s.token == Some(2) && 1 in s.calls && s.calls[1].version < s.version
    ensures var s := After(OVERTAKEN + [Resume(1)]); s.token == None && s.expired == 1
  {
    hide After;
    OvertakenRun();
    OneMore(OVERTAKEN, Resume(1));
  }

  const SWITCHING: seq<Event> := [CallSelect] + Selected(0, 1) + [CallRestore] + [CallSwitch] + [Resume(2)]
    + [CallSelect]

  const SWITCHED: seq<Event> := SWITCHING + Selected(3, 2) + [Answer(1, NoReply)] + [Resume(1)]

  /** A switch has purged the tenant and waits for the restore that was in flight; a second select is pending. */
  lemma SwitchWaitsRun()
    ensures var s := After(SWITCHING);
      && s.token == Some(1) && s.version == 1 && s.generation == 1 && s.expired == 0
      && s.flight == Some(Flight(1, 1, 0))
      && 1 in s.calls && 2 in s.calls && 3 in s.calls && s.queue == [2]
      && s.calls[1].kind == Restore && s.calls[1].phase == Fetching && s.calls[1].version == 1
      && s.calls[1].started < s.purged
      && s.calls[2].kind == Switch && s.calls[2].phase == Waiting(1)
      && s.calls[3].kind == Select && s.calls[3].phase == Fetching
  {
    hide After;
    FirstTokenRun();
    var e1 := [CallSelect] + Selected(0, 1);
    OneMore(e1, CallRestore);
    OneMore(e1 + [CallRestore], CallSwitch);
    OneMore(e1 + [CallRestore] + [CallSwitch], Resume(2));
    OneMore(e1 + [CallRestore] + [CallSwitch] + [Resume(2)], CallSelect);
  }

  lemma SwitchedRun()
    ensures var s := After(SWITCHED);
      && s.token == Some(2) && s.version == 2 && s.expired == 0
      && 1 in s.calls && 2 in s.calls && s.calls[1].phase == Settled(Failed) && s.calls[1].version == 1
      && s.calls[1].started < s.purged
      && s.calls[2].kind == Switch && s.calls[2].phase == Waiting(1) && s.queue == [2]
  {
    hide After;
    SwitchWaitsRun();
    SelectPublishes(SWITCHING, 3, 2);
    OneMore(SWITCHING + Selected(3, 2), Answer(1, NoReply));
    OneMore(SWITCHING + Selected(3, 2) + [Answer(1, NoReply)], Resume(1));
  }

  /** A purge between the start of a restore and its failure does not spare the newer token if a switch waits for it. */
  lemma FailedRestoreExpiresAcrossAPurge()
    ensures var s := After(SWITCHED);
      s.token == Some(2) && 1 in s.calls && s.calls[1].version < s.version && s.calls[1].started < s.purged
    ensures var s := After(SWITCHED + [Resume(2)]); s.token == None && s.expired == 1
  {
    hide After;
    SwitchedRun();
    OneMore(SWITCHED, Resume(2));
  }

  /**
   Exactly, for whoever waits for a failed restore, in every run: the token held when the waiter goes on, newer or not,
   is spared if and only if the waiter is a request of an earlier generation.
   */
  lemma HeldTokenIsSparedIff(events: seq<Event>, id: CallId)
    requires var s := After(events);
      && id in s.calls && s.calls[id].phase.Waiting? && s.calls[id].phase.flight in s.calls
      && s.calls[s.calls[id].phase.flight].phase == Settled(Failed) && s.token.Some?
    ensures var s, s' := After(events), After(events + [Resume(id)]);
      && (s'.token == s.token <==> s.calls[id].kind.Request? && s.calls[id].generation != s.generation)
      && (s'.expired == s.expired <==> s.calls[id].kind.Request? && s.calls[id].generation != s.generation)
  {
    hide Published, Discards, Step;
    OneMore(events, Resume(id));
    TokenChangesExactly(events, Resume(id));
    WaiterIsRequestOrSwitch(events, id);
    NotARead(After(events), Resume(id));
    WaitersDiscardNothing(After(events), id);
  }

  lemma WaiterIsRequestOrSwitch(events: seq<Event>, id: CallId)
    requires id in After(events).calls && After(events).calls[id].phase.Waiting?
    ensures After(events).calls[id].kind.Request? || After(events).calls[id].kind == Switch
  {
    EveryRunKeeps(events);
    assert CallOk(After(events), id, After(events).calls[id]);
  }

  lemma WaitersDiscardNothing(s: Session, id: CallId)
    requires id in s.calls && s.calls[id].phase.Waiting?
    ensures !Discards(s, Resume(id))
  {
  }
}
