/**
 The delivery rounds of apps/api/src/commands/partner-events-worker.ts: twenty rounds over the tenants, page by page,
 with two consumers claiming rows from a shared index. The scheduler picks the next continuation; deliveries succeed,
 find nothing or fail; an abort may come at any moment.
 */
module PartnerEvents {
  import opened Wrappers
  import opened Paging

  const ROUNDS := 20

  /** Where a consumer is suspended. */
  datatype Consumer = Idle | Publishing(id: Id) | Delivering(id: Id) | Done

  /** A delivery that found work. */
  datatype Work = Work(round: nat, id: Id)

  // ----- what holds at every moment of a round -----

  /** Exactly the tenants up to the boundary have been claimed this round, once each. */
  ghost predicate ClaimedTo(tenants: set<Id>, claims: map<Id, nat>, round: nat, boundary: Option<Id>) {
    && claims.Keys == tenants
    && forall id <- tenants :: claims[id] == if Above(boundary, id) then round else round + 1
  }

  /** Every claim has been delivered, but for one of each tenant that is missing a delivery. */
  ghost predicate DeliveredOk(tenants: set<Id>, claims: map<Id, nat>, processed: map<Id, nat>, missing: set<Id>) {
    && claims.Keys == tenants && processed.Keys == tenants
    && forall id <- tenants :: processed[id] + (if id in missing then 1 else 0) == claims[id]
  }

  /** The tenant a consumer is publishing for. */
  function Pending(c: Consumer): set<Id> {
    match c
    case Publishing(id) => {id}
    case _ => {}
  }

  /** Where the claims of a page stand when the shared index is `next`. */
  function Boundary(page: seq<Id>, cursor: Option<Id>, next: nat): Option<Id> {
    if next == 0 || page == [] then cursor else if next >= |page| then Some(page[|page| - 1]) else Some(page[next - 1])
  }

  /** A publication in progress belongs to the first round, and its tenant has not lost a delivery. */
  ghost predicate PublishingOk(c: Consumer, claims: map<Id, nat>, round: nat, lost: set<Id>) {
    c.Publishing? ==> round == 0 && c.id in claims && claims[c.id] == 1 && c.id !in lost
  }

  ghost predicate FoundWork(log: seq<Work>, round: nat) {
    exists w <- log :: w.round == round
  }

  ghost predicate WorkedOk(log: seq<Work>, worked: bool, round: nat) {
    && (forall w <- log :: w.round <= round)
    && (worked <==> FoundWork(log, round))
  }

  class Worker {
    const tenants: set<Id>
    var claims: map<Id, nat>
    var processed: map<Id, nat>
    var stopped: bool
    var worked: bool
    var next: nat
    var log: seq<Work>
    var failed: set<Id>     // observations: tenants whose publication failed,
    var cut: set<Id>        // and tenants whose publication an abort came after

    constructor (tenants: set<Id>)
      ensures this.tenants == tenants && !stopped && log == [] && failed == {} && cut == {}
      ensures ClaimedTo(tenants, claims, 0, None) && DeliveredOk(tenants, claims, processed, {})
    {
      this.tenants := tenants;
      claims, processed := map id | id in tenants :: 0, map id | id in tenants :: 0;
      stopped, worked, next, log, failed, cut := false, false, 0, [], {}, {};
    }

    /** Tenants that are one delivery behind for good. */
    function Lost(): set<Id>
      reads this
    {
      failed + cut
    }

    /** Only an abort cuts a delivery off. */
    ghost predicate CutOk()
      reads this
    {
      cut != {} ==> stopped
    }

    ghost predicate Page(page: seq<Id>, cursor: Option<Id>, round: nat, pending: set<Id>)
      reads this
    {
      && page == Paging.Page(tenants, cursor, BATCH)
      && ClaimedTo(tenants, claims, round, Boundary(page, cursor, next))
      && DeliveredOk(tenants, claims, processed, Lost() + pending)
      && WorkedOk(log, worked, round)
      && CutOk()
    }

    /** The next row, if any, is claimed by whoever asks first. */
    method Claim(other: Consumer, page: seq<Id>, cursor: Option<Id>, round: nat) returns (c: Consumer)
      requires Page(page, cursor, round, Pending(other)) && PublishingOk(other, claims, round, Lost()) && next < |page|
      modifies this`claims, this`processed, this`next
      ensures Page(page, cursor, round, Pending(c) + Pending(other)) && next == old(next) + 1
      ensures PublishingOk(c, claims, round, Lost()) && PublishingOk(other, claims, round, Lost())
      ensures c.Publishing? && other.Publishing? ==> c.id != other.id
      ensures c.Publishing? || c.Delivering?
    {
      hide Paging.Page, Boundary, ClaimedTo, DeliveredOk, WorkedOk;
      var id := page[next];
      RowIsFresh(tenants, cursor, next);
      ClaimKeeps(tenants, claims, processed, Lost() + Pending(other), round, Boundary(page, cursor, next),
                 Boundary(page, cursor, next + 1), id);
      claims := claims[id := round + 1];
      next := next + 1;
      if round == 0 {
        assert Lost() + Pending(other) + {id} == Lost() + (Pending(Publishing(id)) + Pending(other));
        return Publishing(id);
      }
      assert Pending(Delivering(id)) + Pending(other) == Pending(other);
      processed := processed[id := processed[id] + 1];
      return Delivering(id);
    }

    /**
     One continuation of a consumer: `other` is where the other one is suspended. A delivery is lost only when its
     publication, in the first round, fails or is followed by an abort.
     */
    method Advance(c: Consumer, other: Consumer, page: seq<Id>, cursor: Option<Id>, round: nat) returns (c': Consumer)
      requires Page(page, cursor, round, Pending(c) + Pending(other)) && !c.Done?
      requires PublishingOk(c, claims, round, Lost()) && PublishingOk(other, claims, round, Lost())
      requires c.Publishing? && other.Publishing? ==> c.id != other.id
      modifies this`claims, this`processed, this`stopped, this`worked, this`next, this`log, this`failed, this`cut
      ensures Page(page, cursor, round, Pending(c') + Pending(other))
      ensures PublishingOk(c', claims, round, Lost()) && PublishingOk(other, claims, round, Lost())
      ensures c'.Publishing? && other.Publishing? ==> c'.id != other.id
      ensures (old(stopped) ==> stopped) && old(log) <= log
      ensures c'.Done? ==> stopped || next >= |page|
      ensures next >= old(next)
      ensures Left(c', page, next) < old(Left(c, page, next))
      ensures Lost() == old(Lost()) || (round == 0 && c.Publishing? && Lost() == old(Lost()) + {c.id})
    {
      hide Paging.Page, ClaimedTo, Boundary, DeliveredOk;
      var abort: bool := *;
      if abort { stopped := true; }
      match c
      case Idle =>
        assert Pending(c) + Pending(other) == Pending(other);
        if stopped { return Done; }
        if next >= |page| {
          PastTheEnd(page, cursor, next);
          next := next + 1;
          return Done;
        }
        c' := Claim(other, page, cursor, round);
      case Publishing(id) =>
        c' := Published(id, other, page, cursor, round);
      case Delivering(id) =>
        var found: bool := *;
        if found {
          worked := true;
          log := log + [Work(round, id)];
          assert log[|log| - 1] == Work(round, id);
        }
        return Idle;
    }

    /** A publication is over: it has failed, an abort has come, or the delivery is made. */
    method Published(id: Id, other: Consumer, page: seq<Id>, cursor: Option<Id>, round: nat) returns (c': Consumer)
      requires Page(page, cursor, round, {id} + Pending(other)) && round == 0
      requires PublishingOk(Publishing(id), claims, round, Lost()) && PublishingOk(other, claims, round, Lost())
      requires other.Publishing? ==> id != other.id
      modifies this`processed, this`failed, this`cut
      ensures Page(page, cursor, round, Pending(c') + Pending(other)) && PublishingOk(other, claims, round, Lost())
      ensures c'.Idle? || c'.Delivering? || (c'.Done? && stopped)
      ensures Lost() == old(Lost()) || Lost() == old(Lost()) + {id}
    {
      hide Paging.Page, ClaimedTo, Boundary, WorkedOk;
      assert Lost() + ({id} + Pending(other)) == Lost() + Pending(other) + {id};
      assert {} + Pending(other) == Pending(other);
      var refused: bool := *;
      if refused {
        failed := failed + {id};
        assert Lost() == old(Lost()) + {id};
        return Idle;
      }
      if stopped {
        cut := cut + {id};
        assert Lost() == old(Lost()) + {id};
        return Done;
      }
      DeliveryKeeps(tenants, claims, processed, Lost() + Pending(other), id);
      processed := processed[id := processed[id] + 1];
      return Delivering(id);
    }

    /** Both consumers on one page, continuations in any order. */
    method RunPage(page: seq<Id>, cursor: Option<Id>, round: nat, consumers: nat)
      requires page == Paging.Page(tenants, cursor, BATCH) && consumers <= 2 && (page != [] ==> consumers > 0)
      requires ClaimedTo(tenants, claims, round, cursor) && DeliveredOk(tenants, claims, processed, Lost())
      requires WorkedOk(log, worked, round) && CutOk()
      modifies this`claims, this`processed, this`stopped, this`worked, this`next, this`log, this`failed, this`cut
      ensures Page(page, cursor, round, {})
      ensures (old(stopped) ==> stopped) && old(log) <= log
      ensures !stopped ==> ClaimedTo(tenants, claims, round, LastOr(page, cursor))
      ensures round > 0 ==> Lost() == old(Lost())
    {
      hide Paging.Page, ClaimedTo, DeliveredOk, WorkedOk, PublishingOk;
      next := 0;
      var first, second := if consumers >= 1 then Idle else Done, if consumers >= 2 then Idle else Done;
      assert Lost() + (Pending(first) + Pending(second)) == Lost();
      assert Page(page, cursor, round, Pending(first) + Pending(second));
      IdlesAreFine(claims, round, Lost());
      while first != Done || second != Done
        invariant Page(page, cursor, round, Pending(first) + Pending(second))
        invariant PublishingOk(first, claims, round, Lost()) && PublishingOk(second, claims, round, Lost())
        invariant first.Publishing? && second.Publishing? ==> first.id != second.id
        invariant first == Done && page != [] ==> stopped || next >= |page|
        invariant (old(stopped) ==> stopped) && old(log) <= log
        invariant round > 0 ==> Lost() == old(Lost())
        decreases Left(first, page, next) + Left(second, page, next)
      {
        var pickFirst: bool := *;
        if first != Done && (pickFirst || second == Done) {
          LeftOfOther(second, page, next);
          first := Advance(first, second, page, cursor, round);
        } else {
          LeftOfOther(first, page, next);
          assert Pending(first) + Pending(second) == Pending(second) + Pending(first);
          second := Advance(second, first, page, cursor, round);
          assert Pending(first) + Pending(second) == Pending(second) + Pending(first);
        }
      }
      assert Pending(first) + Pending(second) == {};
    }

    /** One discovery round over all pages. */
    method RunRound(round: nat, poolMax: nat)
      requires poolMax > 0 && ClaimedTo(tenants, claims, round, None) && DeliveredOk(tenants, claims, processed, Lost())
      requires CutOk()
      requires forall w <- log :: w.round < round
      modifies this`claims, this`processed, this`stopped, this`worked, this`next, this`log, this`failed, this`cut
      ensures exists boundary :: ClaimedTo(tenants, claims, round, boundary)
      ensures DeliveredOk(tenants, claims, processed, Lost()) && WorkedOk(log, worked, round) && CutOk()
      ensures (old(stopped) ==> stopped) && old(log) <= log
      ensures !stopped ==> ClaimedTo(tenants, claims, round + 1, None)
      ensures round > 0 ==> Lost() == old(Lost())
    {
      hide Paging.Page, ClaimedTo, DeliveredOk;
      worked := false;
      var cursor: Option<Id>, more := None, true;
      while true
        invariant more && ClaimedTo(tenants, claims, round, cursor)
        invariant DeliveredOk(tenants, claims, processed, Lost()) && WorkedOk(log, worked, round) && CutOk()
        invariant (old(stopped) ==> stopped) && old(log) <= log
        invariant round > 0 ==> Lost() == old(Lost())
        decreases |IdsAbove(tenants, cursor)|
      {
        var page := Paging.Page(tenants, cursor, BATCH);
        more := |page| == BATCH;
        var consumers := if poolMax == 1 || |page| == 1 then 1 else 2;
        if page == [] { consumers := 0; }
        RunPage(page, cursor, round, consumers);
        assert Lost() + {} == Lost();
        if stopped {
          assert ClaimedTo(tenants, claims, round, Boundary(page, cursor, next));
          return;
        }
        PageMovesOn(tenants, cursor);
        cursor := LastOr(page, cursor);
        if !more {
          RoundIsOver(tenants, claims, round, cursor);
          return;
        }
      }
    }
  }

  lemma PastTheEnd(page: seq<Id>, cursor: Option<Id>, next: nat)
    requires next >= |page|
    ensures Boundary(page, cursor, next + 1) == Boundary(page, cursor, next)
  {
  }

  /** Once published, the pending delivery is made. */
  lemma DeliveryKeeps(tenants: set<Id>, claims: map<Id, nat>, processed: map<Id, nat>, missing: set<Id>, id: Id)
    requires DeliveredOk(tenants, claims, processed, missing + {id}) && id in tenants && id !in missing
    ensures DeliveredOk(tenants, claims, processed[id := processed[id] + 1], missing)
  {
  }

  /** The next row of a page is the one tenant between its boundary and the following one. */
  lemma RowIsFresh(tenants: set<Id>, cursor: Option<Id>, next: nat)
    requires next < |Paging.Page(tenants, cursor, BATCH)|
    ensures var page := Paging.Page(tenants, cursor, BATCH);
      && page[next] in tenants && Boundary(page, cursor, next + 1) == Some(page[next])
      && forall x <- tenants ::
           Above(Boundary(page, cursor, next), x) <==> x == page[next] || Above(Boundary(page, cursor, next + 1), x)
  {
    hide Paging.Page;
    PageIsDense(tenants, cursor, BATCH);
    RowIsNext(tenants, Paging.Page(tenants, cursor, BATCH), cursor, next);
  }

  lemma RowIsNext(tenants: set<Id>, page: seq<Id>, cursor: Option<Id>, next: nat)
    requires next < |page| && Increasing(page) && forall id <- page :: id in tenants && Above(cursor, id)
    requires forall id <- tenants | Above(cursor, id) :: id in page || forall x <- page :: x < id
    ensures Boundary(page, cursor, next + 1) == Some(page[next]) && page[next] in tenants
    ensures forall x <- tenants ::
      Above(Boundary(page, cursor, next), x) <==> x == page[next] || Above(Boundary(page, cursor, next + 1), x)
  {
    var id, before := page[next], Boundary(page, cursor, next);
    assert id in page && Boundary(page, cursor, next + 1) == Some(id);
    assert next > 0 ==> before == Some(page[next - 1]) && page[next - 1] in page;
    forall x <- tenants ensures Above(before, x) <==> x == id || id < x {
      if x in page {
        var k :| 0 <= k < |page| && page[k] == x;
        assert k < next ==> x <= page[next - 1];
        assert k > next ==> id < x;
      } else {
        assert Above(cursor, x) ==> id < x;
      }
    }
  }

  /**
   Claiming that tenant keeps the count of claims; in the first round its delivery is then missing, in later ones made
   at once.
   */
  lemma ClaimKeeps(tenants: set<Id>, claims: map<Id, nat>, processed: map<Id, nat>, missing: set<Id>, round: nat,
                   before: Option<Id>, after: Option<Id>, id: Id)
    requires ClaimedTo(tenants, claims, round, before) && DeliveredOk(tenants, claims, processed, missing)
    requires id in tenants && Above(before, id) && !Above(after, id)
    requires forall x <- tenants :: Above(before, x) <==> x == id || Above(after, x)
    ensures id in claims && id in processed && claims[id] == round
    ensures ClaimedTo(tenants, claims[id := round + 1], round, after)
    ensures DeliveredOk(tenants, claims[id := round + 1], processed[id := processed[id] + 1], missing)
    ensures round == 0 ==> id !in missing && DeliveredOk(tenants, claims[id := round + 1], processed, missing + {id})
  {
  }

  /** What a consumer may still do before its page is over. */
  function Left(c: Consumer, page: seq<Id>, next: nat): nat {
    4 * (if next < |page| then |page| - next else 0)
    + match c case Idle => 1 case Publishing(_) => 3 case Delivering(_) => 2 case Done => 0
  }

  lemma IdlesAreFine(claims: map<Id, nat>, round: nat, lost: set<Id>)
    ensures PublishingOk(Idle, claims, round, lost) && PublishingOk(Done, claims, round, lost)
  {
  }

  lemma LeftOfOther(c: Consumer, page: seq<Id>, next: nat)
    ensures forall later: nat | later >= next :: Left(c, page, later) <= Left(c, page, next)
  {
  }

  /** A full page moves the cursor on; a short one leaves no tenant above it. */
  lemma PageMovesOn(tenants: set<Id>, cursor: Option<Id>)
    ensures var page := Paging.Page(tenants, cursor, BATCH);
      && (page != [] ==> |IdsAbove(tenants, LastOr(page, cursor))| < |IdsAbove(tenants, cursor)|)
      && (|page| < BATCH ==> forall id <- tenants :: !Above(LastOr(page, cursor), id))
  {
    PageIsDense(tenants, cursor, BATCH);
    hide Paging.Page;
    var page := Paging.Page(tenants, cursor, BATCH);
    if page != [] { AboveShrinks(tenants, cursor, page[|page| - 1]); }
    if |page| < BATCH {
      forall id <- tenants ensures !Above(LastOr(page, cursor), id) {
        if id in page { var k :| 0 <= k < |page| && page[k] == id; }
      }
    }
  }

  lemma AboveShrinks(tenants: set<Id>, cursor: Option<Id>, last: Id)
    requires last in tenants && Above(cursor, last)
    ensures |IdsAbove(tenants, Some(last))| < |IdsAbove(tenants, cursor)|
  {
    SmallerSet(IdsAbove(tenants, Some(last)), IdsAbove(tenants, cursor), last);
  }

  lemma SmallerSet(a: set<Id>, b: set<Id>, x: Id)
    requires a <= b && x in b && x !in a
    ensures |a| < |b|
  {
    assert b == a + (b - a);
    assert x in b - a;
  }

  lemma RoundIsOver(tenants: set<Id>, claims: map<Id, nat>, round: nat, boundary: Option<Id>)
    requires ClaimedTo(tenants, claims, round, boundary) && forall id <- tenants :: !Above(boundary, id)
    ensures ClaimedTo(tenants, claims, round + 1, None)
  {
  }

  // ----- the whole scan -----

  /**
   No tenant ever gets two claims ahead of another, or more than twenty; every claim is delivered but for the lost ones.
   */
  ghost predicate Fair(tenants: set<Id>, claims: map<Id, nat>, processed: map<Id, nat>, lost: set<Id>) {
    && claims.Keys == tenants
    && (forall a, b | a in tenants && b in tenants :: claims[a] <= claims[b] + 1)
    && (forall a <- tenants :: claims[a] <= 20)
    && DeliveredOk(tenants, claims, processed, lost)
  }

  lemma RoundIsFair(tenants: set<Id>, claims: map<Id, nat>, processed: map<Id, nat>, lost: set<Id>, round: nat,
                    boundary: Option<Id>)
    requires ClaimedTo(tenants, claims, round, boundary) && DeliveredOk(tenants, claims, processed, lost)
    requires round < ROUNDS || (round == ROUNDS && boundary.None?)
    ensures Fair(tenants, claims, processed, lost)
  {
  }

  /**
   One scan of a fixed set of tenants. Fair at whatever moment it ends: a tenant has one delivery less than claims if
   its publication failed or an abort came right after it, and as many as claims otherwise. If nothing aborted the scan,
   every tenant was claimed once in each of its rounds, every claim was delivered but for failed publications, every
   round but the last found work, and only a round without work ended it early.
   */
  method RunScan(tenants: set<Id>, poolMax: nat) returns (worker: Worker, rounds: nat)
    requires poolMax > 0
    ensures worker.tenants == tenants && Fair(tenants, worker.claims, worker.processed, worker.failed + worker.cut)
    ensures !worker.stopped ==> 1 <= rounds <= 20 && worker.cut == {}
    ensures !worker.stopped ==> forall id <- tenants ::
      worker.claims[id] == rounds && worker.processed[id] == (if id in worker.failed then rounds - 1 else rounds)
    ensures !worker.stopped ==> forall r | 0 <= r < rounds - 1 :: FoundWork(worker.log, r)
    ensures !worker.stopped && rounds < ROUNDS ==> !FoundWork(worker.log, rounds - 1)
  {
    worker := new Worker(tenants);
    rounds := 0;
    assert worker.Lost() == {};
    RoundIsFair(tenants, worker.claims, worker.processed, {}, 0, None);
    while rounds < ROUNDS && !worker.stopped
      invariant rounds <= ROUNDS && worker.tenants == tenants && fresh(worker)
      invariant Fair(tenants, worker.claims, worker.processed, worker.Lost()) && worker.CutOk()
      invariant !worker.stopped ==> ClaimedTo(tenants, worker.claims, rounds, None)
      invariant !worker.stopped ==> forall w <- worker.log :: w.round < rounds
      invariant !worker.stopped ==> forall r | 0 <= r < rounds :: FoundWork(worker.log, r)
      decreases ROUNDS - rounds
    {
      ghost var before := worker.log;
      worker.RunRound(rounds, poolMax);
      ghost var boundary :| ClaimedTo(tenants, worker.claims, rounds, boundary);
      RoundIsFair(tenants, worker.claims, worker.processed, worker.Lost(), rounds, boundary);
      LogGrows(before, worker.log);
      rounds := rounds + 1;
      if !worker.worked { break; }
    }
    if !worker.stopped { AllDelivered(tenants, worker.claims, worker.processed, worker.failed, rounds); }
  }

  lemma AllDelivered(tenants: set<Id>, claims: map<Id, nat>, processed: map<Id, nat>, failed: set<Id>, rounds: nat)
    requires ClaimedTo(tenants, claims, rounds, None) && DeliveredOk(tenants, claims, processed, failed) && rounds > 0
    ensures forall id <- tenants :: claims[id] == rounds && processed[id] == if id in failed then rounds - 1 else rounds
  {
  }

  lemma LogGrows(before: seq<Work>, after: seq<Work>)
    requires before <= after
    ensures forall r :: FoundWork(before, r) ==> FoundWork(after, r)
  {
    forall r | FoundWork(before, r) ensures FoundWork(after, r) {
      var w :| w in before && w.round == r;
      assert w in after;
    }
  }
}
