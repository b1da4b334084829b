/**
 The client object of apps/web/src/embed/session-client.ts. Each method is one stretch of code between two `await`s
 and does to the fields what the protocol step of the same name does to the session.
 */
module EmbedSessionClient {
  import opened Wrappers
  import opened EmbedProtocol
  import opened EmbedSafety

  /** The published snapshot; each change replaces it as a whole. */
  datatype EmbedState = EmbedState(
    status: Status, connections: seq<Connection>, selected: string, expiresAt: int, accountId: nat,
    action: Option<Action>, health: Option<Health>, busy: bool)

  function Empty(status: Status): EmbedState {
    EmbedState(status, [], "", 0, 0, None, None, false)
  }

  class Client {
    var state: EmbedState
    // private memory
    var token: Option<nat>
    var verifier: Option<nat>
    var generation: nat
    var selection: nat
    var appContext: Option<Context>
    var invalidContext: bool
    var poll: Option<TimerId>
    var expiry: Option<TimerId>
    // the runtime: armed timers, suspended continuations, unused handles, the clock
    var timers: map<TimerId, Timer>
    var calls: map<CallId, Call>
    var nextId: nat
    var now: int

    ghost function View(): Embed
      reads this
    {
      Embed(state.status, state.connections, state.selected, state.expiresAt, state.accountId,
            state.action, state.health, state.busy, token, verifier, generation, selection,
            appContext, invalidContext, poll, expiry, timers, calls, nextId, now)
    }

    constructor ()
      ensures View() == INITIAL && Inv(View())
    {
      state, token, verifier, generation, selection := Empty(Idle), None, None, 0, 0;
      appContext, invalidContext, poll, expiry, timers, calls, nextId, now :=
        None, false, None, None, map[], map[], 0, 0;
      new;
      EveryRunKeeps([]);
    }

    method ClearTimeout(handle: Option<TimerId>)
      modifies this`timers
      ensures timers == Without(old(timers), handle)
    {
      if handle.Some? { timers := timers - {handle.value}; }
    }

    method Stop(next: Status)
      modifies this
      ensures View() == StopAs(old(View()), next)
    {
      generation, selection := generation + 1, selection + 1;
      ClearTimeout(poll);
      ClearTimeout(expiry);
      token, verifier := None, None;
      state := Empty(next);
    }

    method Failed(refusal: Refusal)
      modifies this
      ensures View() == Fail(old(View()), refusal)
    {
      Stop(if refusal.Some? && refusal.value in {401, 403, 404} then Denied else Unavailable);
    }

    method Request(job: Job)
      modifies this
      ensures View() == Launch(old(View()), job)
    {
      calls := calls[nextId := Call(job, generation, selection)];
      nextId := nextId + 1;
    }

    method Forget(id: CallId)
      modifies this`calls
      ensures View() == Finish(old(View()), id)
    {
      calls := calls - {id};
    }

    method ArmPoll(timer: Timer)
      modifies this
      ensures View() == SetPoll(old(View()), timer)
    {
      poll, timers, nextId := Some(nextId), timers[nextId := timer], nextId + 1;
    }

    method ArmExpiry()
      modifies this
      ensures View() == SetExpiry(old(View()))
    {
      expiry, timers, nextId := Some(nextId), timers[nextId := Expiry], nextId + 1;
    }

    method Active() returns (active: bool)
      modifies this
      ensures (View(), active) == CheckActive(old(View()))
    {
      if state.status != Authorized || token == None { return false; }
      if state.expiresAt <= now {
        Stop(Expired);
        return false;
      }
      return true;
    }

    method Begins(secret: nat)
      modifies this
      ensures View() == BeginSegment(old(View()), secret)
    {
      Stop(Starting);
      verifier := Some(secret);
      Request(Digesting);
    }

    method DigestArrives(id: CallId, ok: bool)
      requires id in calls
      modifies this
      ensures View() == DigestedSegment(old(View()), id, ok)
    {
      if calls[id].generation != generation { Forget(id); return; }
      if ok {
        calls := calls[id := calls[id].(job := Beginning)];
      } else {
        Forget(id);
        Failed(None);
      }
    }

    method StartArrives(id: CallId, start: StartReply)
      requires id in calls
      modifies this
      ensures View() == StartedSegment(old(View()), id, start)
    {
      var captured := calls[id].generation;
      Forget(id);
      if captured != generation { return; }
      if start.StartFailed? { Failed(start.refusal); return; }
      var deadline := Min(start.expiresAt, now + 120000);
      if deadline <= now { Stop(Expired); return; }
      state := state.(status := AwaitingApproval, expiresAt := deadline);
      ArmExpiry();
      ArmPoll(Poll(start.request, captured));
    }

    method Refreshes(chain: Option<nat>)
      modifies this
      ensures View() == RefreshSegment(old(View()), chain)
    {
      var active := Active();
      if active && state.selected != "" {
        Request(Refreshing(state.selected, chain));
      } else if chain.Some? {
        calls := calls[nextId := Call(Scheduling, chain.value, selection)];
        nextId := nextId + 1;
      }
    }

    method Authorizes(g: ExchangeReply, deadline: int)
      requires g.Granted?
      modifies this
      ensures View() == Authorize(old(View()), g, deadline)
    {
      hide FirstChoice;
      verifier, token := None, Some(g.token);
      ClearTimeout(expiry);
      state := state.(status := Authorized, accountId := g.accountId, connections := g.connections,
                      expiresAt := deadline, selected := FirstChoice(appContext, g.connections));
      ArmExpiry();
    }

    method GrantArrives(g: ExchangeReply)
      requires g.Granted?
      modifies this
      ensures View() == GrantedSegment(old(View()), g)
    {
      hide StopAs, RefreshSegment, Authorize;
      if invalidContext || (appContext.Some? && !GrantedBy(appContext.value, g.accountId, g.connections)) {
        Stop(Denied);
        return;
      }
      var deadline := Min(g.expiresAt, now + 300000);
      if deadline <= now { Stop(Expired); return; }
      var chain := generation;
      Authorizes(g, deadline);
      Refreshes(Some(chain));
    }

    method ExchangeArrives(id: CallId, exchange: ExchangeReply)
      requires id in calls && calls[id].job.Exchanging?
      modifies this
      ensures View() == ExchangedSegment(old(View()), id, exchange)
    {
      hide StopAs, GrantedSegment;
      var c := calls[id];
      Forget(id);
      if c.generation != generation { return; }
      match exchange
      case Pending => ArmPoll(Poll(c.job.request, generation));
      case ExchangeFailed(refusal) =>
        if refusal == Some(429) { ArmPoll(Poll(c.job.request, generation)); } else { Failed(refusal); }
      case Granted(_, _, _, _) => GrantArrives(exchange);
    }

    method Schedules(id: CallId)
      requires id in calls
      modifies this
      ensures View() == ScheduledSegment(old(View()), id)
    {
      var captured := calls[id].generation;
      Forget(id);
      if captured != generation || state.status != Authorized { return; }
      ArmPoll(HealthPoll(generation));
    }

    method HealthArrives(id: CallId, report: HealthReply)
      requires id in calls && calls[id].job.Refreshing?
      modifies this
      ensures View() == RefreshedSegment(old(View()), id, report)
    {
      hide StopAs;
      var c := calls[id];
      if c.generation == generation && c.selection == selection {
        if report.HealthFailed? {
          Failed(report.refusal);
        } else {
          var active := Active();
          if active {
            if report.BadHealth? || report.health.integrationId != c.job.id {
              Failed(None);
            } else {
              ShowHealth(report.health);
            }
          }
        }
      }
      if c.job.chain.Some? {
        calls := calls[id := Call(Scheduling, c.job.chain.value, c.selection)];
      } else {
        Forget(id);
      }
    }

    method ShowHealth(report: Health)
      modifies this
      ensures View() == ApplyHealth(old(View()), report)
    {
      state := state.(health := Some(report));
      if !report.pairAllowed || report.connected {
        selection := selection + 1;
        state := state.(action := None, busy := false);
      }
    }

    method Pairs()
      modifies this
      ensures View() == PairSegment(old(View()))
    {
      var active := Active();
      var chosen := FindConnection(state.connections, state.selected);
      if !active || state.busy || chosen.None? || !chosen.value.canPair { return; }
      state := state.(busy := true, action := None);
      Request(Pairing(state.selected));
    }

    method OfferArrives(id: CallId, offer: PairReply)
      requires id in calls
      modifies this
      ensures View() == PairedSegment(old(View()), id, offer)
    {
      hide StopAs;
      var c := calls[id];
      Forget(id);
      if c.generation != generation || c.selection != selection { return; }
      if offer.PairFailed? { Failed(offer.refusal); return; }
      var active := Active();
      if !active {
        if c.generation == generation { state := state.(busy := false); }
        return;
      }
      if offer.BadOffer? || (state.health.Some? && offer.instanceId != state.health.value.instanceId)
        || offer.action.leavesFrame {
        Failed(None);
        return;
      }
      var overdue := offer.action.expiresAt.Some? && offer.action.expiresAt.value <= now;
      state := state.(action := if overdue then None else Some(offer.action));
      state := state.(busy := false);
    }

    method SetsContext(next: Option<Context>)
      modifies this
      ensures View() == ContextSegment(old(View()), next)
    {
      hide StopAs;
      invalidContext := next.None?;
      if next.Some? && next == appContext { return; }
      appContext, selection := next, selection + 1;
      state := state.(action := None, health := None, busy := false);
      if state.status == Authorized {
        if next.None? || !GrantedBy(next.value, state.accountId, state.connections) {
          Stop(Denied);
        } else {
          state := state.(selected := FindInbox(state.connections, next.value.inboxId).value.integrationId);
        }
      }
    }

    method Selects(id: string)
      modifies this
      ensures View() == SelectSegment(old(View()), id)
    {
      hide RefreshSegment;
      var active := Active();
      var chosen := FindConnection(state.connections, id);
      if !active || chosen.None? { return; }
      if appContext.Some? && chosen.value.inboxId != appContext.value.inboxId { return; }
      selection := selection + 1;
      state := state.(selected := id, action := None, health := None, busy := false);
      Refreshes(None);
    }

    method TimerFires(timer: TimerId)
      requires timer in timers
      modifies this
      ensures View() == FireSegment(old(View()), timer)
    {
      hide RefreshSegment, StopAs;
      var due := timers[timer];
      timers := timers - {timer};
      match due
      case Expiry => Stop(Expired);
      case Poll(request, captured) => if captured == generation && verifier.Some? { Request(Exchanging(request)); }
      case HealthPoll(captured) => Refreshes(Some(captured));
    }

    /** One event, in any order the world chooses: the object follows the protocol and keeps its invariant. */
    method Handle(e: Event)
      requires Kept(View())
      modifies this
      ensures View() == Step(old(View()), e) && Kept(View())
    {
      StepKeeps(View(), e);
      hide Inv, StopAs, BeginSegment, ContextSegment, SelectSegment, RefreshSegment, PairSegment, FireSegment,
           DigestedSegment, StartedSegment, ExchangedSegment, RefreshedSegment, PairedSegment, ScheduledSegment;
      match e
      case Stop(status) => Stop(status);
      case Begin(secret) => Begins(secret);
      case SetContext(next) => SetsContext(next);
      case Select(id) => Selects(id);
      case ClearAction => state := state.(action := None);
      case Refresh => Refreshes(None);
      case Pair => Pairs();
      case Fire(timer) => if timer in timers { TimerFires(timer); }
      case Advance(to) => if to >= now { now := to; }
      case Digested(id, ok) => if id in calls && calls[id].job == Digesting { DigestArrives(id, ok); }
      case Started(id, start) => if id in calls && calls[id].job == Beginning { StartArrives(id, start); }
      case Exchanged(id, exchange) => if id in calls && calls[id].job.Exchanging? { ExchangeArrives(id, exchange); }
      case Refreshed(id, report) => if id in calls && calls[id].job.Refreshing? { HealthArrives(id, report); }
      case Paired(id, offer) => if id in calls && calls[id].job.Pairing? { OfferArrives(id, offer); }
      case Scheduled(id) => if id in calls && calls[id].job == Scheduling { Schedules(id); }
    }
  }
}
