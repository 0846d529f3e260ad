/**
  The handlers as they run: each method updates the tables in place and is proved to do what its specification
  function in `ServerModel` says. A transaction that fails leaves every table as it was.
*/
module Server {
  import opened Wrappers
  import opened Bytes
  import opened Counters
  import opened ServerModel
  import opened Meter
  import Gc = ServerGc

  // ----- a mark, lane by lane -----

  ghost function TrustedLanes(db: Db, tree: Id): set<Lane> {
    set lane | lane in db.covered && lane.tree == tree && Trusted(db, lane)
  }

  /** The rows of some lanes that a mark takes. */
  ghost function Hits(db: Db, tree: Id, since: real, now: real, lanes: set<Lane>): set<Slot> {
    set k | k in db.index && Marks(db, tree, since, now, k) && Lane(tree, k.sub.replica) in lanes
  }

  ghost function RaisedFloors(db: Db, since: real, done: set<Lane>): map<Lane, nat> {
    map lane | lane in done && lane in db.covered :: RaisedFloor(db, lane, since)
  }

  ghost function WithMarks(db: Db, floors: map<Lane, nat>, hits: set<Slot>, now: real): Db {
    db.(floors := db.floors + floors,
        index := map k | k in db.index :: if k in hits then db.index[k].(pending := Some(now)) else db.index[k])
  }

  /** The tables once some lanes are done. */
  ghost function MarkedSoFar(db: Db, tree: Id, since: real, now: real, done: set<Lane>): Db {
    WithMarks(db, RaisedFloors(db, since, done), Hits(db, tree, since, now, done), now)
  }

  ghost predicate Progress(was: Db, tree: Id, since: real, now: real, done: set<Lane>, db: Db, marked: nat) {
    db == MarkedSoFar(was, tree, since, now, done) && marked == |Hits(was, tree, since, now, done)|
  }

  lemma WithMoreMarks(db: Db, floors: map<Lane, nat>, hits: set<Slot>, now: real, lane: Lane, raised: nat, more: set<Slot>)
    ensures var before := WithMarks(db, floors, hits, now);
      before.(floors := before.floors[lane := raised],
              index := map k | k in before.index ::
                if k in more then before.index[k].(pending := Some(now)) else before.index[k])
      == WithMarks(db, floors[lane := raised], hits + more, now)
  {
  }

  lemma MarkedAll(db: Db, tree: Id, since: real, now: real)
    requires tree in db.owners
    ensures MarkedSoFar(db, tree, since, now, TrustedLanes(db, tree)) == Mark(db, tree, since, now)
  {
    var floors, hits := RaisedFloors(db, since, TrustedLanes(db, tree)), Hits(db, tree, since, now, TrustedLanes(db, tree));
    assert floors ==
      map lane | lane in db.covered && lane.tree == tree && Trusted(db, lane) :: RaisedFloor(db, lane, since);
    forall k | k in db.index ensures k in hits <==> Marks(db, tree, since, now, k) {
      AllHits(db, tree, since, now, k);
    }
  }

  lemma AllHits(db: Db, tree: Id, since: real, now: real, k: Slot)
    requires k in db.index
    ensures k in Hits(db, tree, since, now, TrustedLanes(db, tree)) <==> Marks(db, tree, since, now, k)
  {
  }

  lemma HitsAdd(db: Db, tree: Id, since: real, now: real, done: set<Lane>, lane: Lane)
    requires lane !in done
    ensures Hits(db, tree, since, now, done + {lane}) == Hits(db, tree, since, now, done) + Hits(db, tree, since, now, {lane})
    ensures Hits(db, tree, since, now, done) !! Hits(db, tree, since, now, {lane})
    ensures |Hits(db, tree, since, now, done + {lane})| ==
            |Hits(db, tree, since, now, done)| + |Hits(db, tree, since, now, {lane})|
  {
  }

  /** One more lane: its floor, and the marks of its rows. */
  lemma MarkedStep(db: Db, tree: Id, since: real, now: real, done: set<Lane>, lane: Lane)
    requires lane in TrustedLanes(db, tree) && lane !in done
    ensures var before := MarkedSoFar(db, tree, since, now, done);
      var hits := Hits(db, tree, since, now, {lane});
      before.(floors := before.floors[lane := RaisedFloor(db, lane, since)],
              index := map k | k in before.index ::
                if k in hits then before.index[k].(pending := Some(now)) else before.index[k])
      == MarkedSoFar(db, tree, since, now, done + {lane})
  {
    HitsAdd(db, tree, since, now, done, lane);
    RaisedAdd(db, since, done, lane);
    WithMoreMarks(db, RaisedFloors(db, since, done), Hits(db, tree, since, now, done), now, lane,
                  RaisedFloor(db, lane, since), Hits(db, tree, since, now, {lane}));
  }

  lemma RaisedAdd(db: Db, since: real, done: set<Lane>, lane: Lane)
    requires lane in db.covered
    ensures RaisedFloors(db, since, done + {lane}) == RaisedFloors(db, since, done)[lane := RaisedFloor(db, lane, since)]
  {
  }

  /** What the loop reads of one lane is still what it was before the loop. */
  lemma OtherLanes(db: Db, tree: Id, since: real, now: real, done: set<Lane>, lane: Lane)
    requires lane !in done
    ensures FloorOf(MarkedSoFar(db, tree, since, now, done), lane) == FloorOf(db, lane)
    ensures forall k :: k in db.index && k.sub.Log? && Lane(k.tree, k.sub.replica) == lane ==>
              MarkedSoFar(db, tree, since, now, done).index[k] == db.index[k]
  {
  }

  lemma HitsOfLane(db: Db, tree: Id, since: real, now: real, done: set<Lane>, lane: Lane, hits: set<Slot>, retained: real)
    requires lane !in done && lane in TrustedLanes(db, tree) && retained == RetainedFor(db, tree)
    requires var so := MarkedSoFar(db, tree, since, now, done);
      hits == set k | k in so.index && k.sub.Log? && Lane(k.tree, k.sub.replica) == lane &&
        so.index[k].pending.None? && k.sub.counter < RaisedFloor(db, lane, since) && so.index[k].created < now - retained
    ensures hits == Hits(db, tree, since, now, {lane})
  {
    OtherLanes(db, tree, since, now, done, lane);
  }

  /** A lane's floor raised and its rows marked is one more lane done. */
  lemma LaneDone(was: Db, tree: Id, since: real, now: real, done: set<Lane>, lane: Lane, before: Db, after: Db,
                 hits: set<Slot>, retained: real)
    requires lane in TrustedLanes(was, tree) && lane !in done && retained == RetainedFor(was, tree)
    requires before == MarkedSoFar(was, tree, since, now, done)
    requires hits == set k | k in before.index && k.sub.Log? && Lane(k.tree, k.sub.replica) == lane &&
      before.index[k].pending.None? && k.sub.counter < RaisedFloor(was, lane, since) &&
      before.index[k].created < now - retained
    requires after == before.(floors := before.floors[lane := RaisedFloor(was, lane, since)],
                              index := map k | k in before.index ::
                                if k in hits then before.index[k].(pending := Some(now)) else before.index[k])
    ensures after == MarkedSoFar(was, tree, since, now, done + {lane})
    ensures |Hits(was, tree, since, now, done + {lane})| == |Hits(was, tree, since, now, done)| + |hits|
  {
    HitsOfLane(was, tree, since, now, done, lane, hits, retained);
    HitsAdd(was, tree, since, now, done, lane);
    MarkedStep(was, tree, since, now, done, lane);
  }

  /** The grouped reports of the active members. */
  ghost predicate IsGate(db: Db, tree: Id, since: real, members: map<Id, map<Replica, nat>>) {
    members.Keys == Active(db, tree, since) &&
    forall m, r :: m in members ==> At(members[m], r) == ReportOf(db, Watch(tree, m, r), since)
  }

  /** The least report, if any, lowers the coverage to what gate 2 allows. */
  lemma LowIsLowered(db: Db, lane: Lane, members: map<Id, map<Replica, nat>>, g: Option<nat>, since: real, counter: nat)
    requires IsGate(db, lane.tree, since, members)
    requires g.None? <==> members == map[]
    requires g.Some? ==> forall m :: m in members ==> g.value <= At(members[m], lane.replica)
    requires g.Some? ==> exists m :: m in members && g.value == At(members[m], lane.replica)
    ensures Lowered(db, lane, counter, since) == if g.None? then counter else Min(counter, g.value)
  {
    var low := Lowered(db, lane, counter, since);
    var least := if g.None? then counter else Min(counter, g.value);
    assert Gc.AllReport(db, lane, since, least);
    Gc.LoweredIs(db, lane, counter, since, least);
    Gc.LoweredIs(db, lane, counter, since, low);
    if g.Some? {
      var m :| m in members && g.value == At(members[m], lane.replica);
      assert low <= ReportOf(db, Watch(lane.tree, m, lane.replica), since);
    }
  }

  /** The watch is one of a report's, and its row is written. */
  ghost predicate Reports(w: Watch, seat: Seat, frontier: map<Replica, nat>) {
    w.tree == seat.tree && w.member == seat.member && w.replica in frontier
  }

  lemma ReportRow(db: Db, seat: Seat, frontier: map<Replica, nat>, now: real, w: Watch)
    ensures var after := WithReport(db, seat, frontier, now).seen;
      if Reports(w, seat, frontier) then w in after && after[w] == Seen(Clamp(frontier[w.replica]), now)
      else (w in after <==> w in db.seen) && (w in after ==> after[w] == db.seen[w])
  {
  }

  lemma NothingMarked(db: Db, tree: Id, since: real, now: real)
    ensures MarkedSoFar(db, tree, since, now, {}) == db && Hits(db, tree, since, now, {}) == {}
  {
    var so := MarkedSoFar(db, tree, since, now, {});
    assert so.floors == db.floors;
    assert so.index == db.index;
  }

  // ----- a reap, row by row -----

  ghost function ReapAll(db: Db, due: seq<Slot>, purged: set<Slot>): Db {
    if due == [] then db
    else
      var last := due[|due| - 1];
      Reap(ReapAll(db, due[..|due| - 1], purged), last, last in purged)
  }

  /** Reaping takes exactly the listed rows that were still marked. */
  lemma {:induction false} ReapAllTakes(db: Db, due: seq<Slot>, purged: set<Slot>)
    ensures var after := ReapAll(db, due, purged);
      after.owners == db.owners &&
      (forall k :: k in after.index <==> k in db.index && !(k in due && Reapable(db, k))) &&
      forall k :: k in after.index ==> after.index[k] == db.index[k]
  {
    if due != [] {
      var front, last := due[..|due| - 1], due[|due| - 1];
      ReapAllTakes(db, front, purged);
      assert forall k :: k in due <==> k in front || k == last;
    }
  }

  ghost predicate Reapable(db: Db, slot: Slot) {
    slot in db.index && slot.tree in db.owners && db.index[slot].pending.Some?
  }

  /** The bytes of the rows that really went. */
  ghost function Reclaimed(db: Db, due: seq<Slot>, purged: set<Slot>): nat {
    if due == [] then 0
    else
      var before, last := ReapAll(db, due[..|due| - 1], purged), due[|due| - 1];
      Reclaimed(db, due[..|due| - 1], purged) + if Reapable(before, last) then before.index[last].size else 0
  }

  class Tables {
    var accounts: map<Id, Account>
    var owners: map<Id, Id>
    var access: set<Seat>
    var buckets: map<Seat, Bucket>
    var creations: map<Id, Bucket>
    var index: map<Slot, Row>
    var objects: map<Slot, seq<byte>>
    var floors: map<Lane, nat>
    var covered: map<Lane, Coverage>
    var seen: map<Watch, Seen>

    /** The tables that `ServerModel` reads; the bucket of tree creations is apart. */
    ghost function State(): Db
      reads this
    {
      Db(accounts, owners, access, buckets, index, objects, floors, covered, seen)
    }

    constructor (accounts: map<Id, Account>)
      ensures State() == Db(accounts, map[], {}, map[], map[], map[], map[], map[], map[]) && creations == map[]
    {
      this.accounts, this.owners, this.access, this.buckets, this.creations := accounts, map[], {}, map[], map[];
      this.index, this.objects, this.floors, this.covered, this.seen := map[], map[], map[], map[], map[];
    }

    // ----- the meter -----

    method ChargeWrite(p: Put, axis: Axis, now: real) returns (charge: Charge)
      requires Known(State(), p.tree)
      modifies this`accounts, this`buckets
      ensures charge == ChargeFor(old(State()), p, axis, now)
      ensures State() == if charge.Charged? then Debited(old(State()), p, charge) else old(State())
    {
      var owner, seat := owners[p.tree], Seat(p.tree, p.member);
      var account := accounts[owner];
      var before := if seat in buckets then Some(buckets[seat]) else None;
      if !Admits(before, account.rate, account.burst, now) {
        return RateLimited(RetryAfter(account.rate, p.privileged));
      }
      var tables := buckets;
      buckets := buckets[seat := Debit(before, account.rate, account.burst, now)];
      if axis.Accumulating? {
        if account.used + |p.body| > account.cap {
          buckets := tables;
          return CapacityExceeded;
        }
        accounts := accounts[owner := account.(used := account.used + |p.body|)];
      } else {
        assert accounts[owner := account] == accounts;
      }
      charge := Charged(accounts[owner], buckets[seat]);
    }

    /** A token of the account's own bucket, spent even when the creation is refused later. */
    method ChargeCreate(account: Id, now: real) returns (charge: Option<Charge>)
      modifies this`creations
      ensures charge == if account !in accounts then None
        else Some(Meter.ChargeCreate(accounts[account],
                                     if account in old(creations) then Some(old(creations)[account]) else None, now))
      ensures creations == if charge.Some? && charge.value.Charged? then old(creations)[account := charge.value.bucket]
        else old(creations)
    {
      if account !in accounts { return None; }
      var a := accounts[account];
      var before := if account in creations then Some(creations[account]) else None;
      if !Admits(before, a.rate, a.burst, now) { return Some(RateLimited(ExactBackoff(a.rate))); }
      creations := creations[account := Debit(before, a.rate, a.burst, now)];
      return Some(Charged(a, creations[account]));
    }

    method CreditStorage(owner: Id, bytes: nat)
      modifies this`accounts
      ensures accounts == if owner in old(accounts) then old(accounts)[owner := Credit(old(accounts)[owner], bytes)]
        else old(accounts)
    {
      if owner in accounts {
        var a := accounts[owner];
        accounts := accounts[owner := a.(used := if a.used >= bytes then a.used - bytes else 0)];
      }
    }

    // ----- puts -----

    method UpsertIndex(p: Put, now: real, charged: nat)
      modifies this`index, this`objects
      ensures State() == Written(old(State()), p, now, charged)
    {
      var slot := Slot(p.tree, p.sub);
      objects := objects[slot := p.body];
      if slot in index {
        index := index[slot := index[slot].(tag := Tag(p.body), size := |p.body|, author := p.member)];
      } else {
        index := index[slot := Row(Tag(p.body), |p.body|, p.member, now, None, charged)];
      }
    }

    method PutLogBlob(p: Put, now: real) returns (reply: Reply)
      requires Known(State(), p.tree) && p.sub.Log?
      modifies this`accounts, this`buckets, this`index, this`objects
      ensures Outcome(State(), reply) == PutLog(old(State()), p, now)
    {
      var slot, lane := Slot(p.tree, p.sub), Lane(p.tree, p.sub.replica);
      if !p.ifAbsent { return BadRequest; }
      if p.sub.counter > I64_MAX { return BadRequest; }
      if lane in floors && p.sub.counter < floors[lane] { return BelowFloor; }
      if slot in index { return Exists(index[slot].tag); }
      var charge := ChargeWrite(p, Accumulating, now);
      if !charge.Charged? { return Refusal(charge); }
      UpsertIndex(p, now, |p.body|);
      return Accepted(Tag(p.body));
    }

    method PutPointerBlob(p: Put, now: real) returns (reply: Reply)
      requires Known(State(), p.tree) && (p.sub.Head? || p.sub.Other?)
      modifies this`accounts, this`buckets, this`index, this`objects
      ensures Outcome(State(), reply) == PutPointer(old(State()), p, now)
    {
      var slot := Slot(p.tree, p.sub);
      if p.ifAbsent && slot in index { return Exists(index[slot].tag); }
      if !p.ifAbsent && p.sub.Head? {
        var count := ParseCount(p.body);
        if count.None? { return BadRequest; }
        var published := if slot in objects then ParseCount(objects[slot]).GetOr(0) else 0;
        if count.value < published { return HeadRollback; }
      }
      var axis := if p.ifAbsent then Accumulating else PointerOnly;
      var charge := ChargeWrite(p, axis, now);
      if !charge.Charged? { return Refusal(charge); }
      UpsertIndex(p, now, if p.ifAbsent then |p.body| else 0);
      return Accepted(Tag(p.body));
    }

    /** What a lane retains: the floor, or one past its greatest indexed counter, with the 64-bit wrap. */
    method RetainedBound(lane: Lane) returns (bound: nat)
      ensures forall c: nat :: c <= bound <==> WithinBound(State(), lane, c)
    {
      var top := HighestIndexed(lane);
      var next := if top >= I64_MAX then -(I64_MAX as int) - 1 else top + 1;
      bound := if lane in floors then floors[lane] else 0;
      if next > bound { bound := next; }
    }

    /** The greatest indexed counter of the lane, or -1. */
    method HighestIndexed(lane: Lane) returns (top: int)
      ensures top == -1 || (top >= 0 && top in Indexed(State(), lane))
      ensures forall n :: n in Indexed(State(), lane) ==> n <= top
    {
      top := -1;
      var rows := index.Keys;
      while rows != {}
        invariant rows <= index.Keys
        invariant top == -1 || (top >= 0 && top in Indexed(State(), lane))
        invariant forall k :: k in index && k !in rows && k.sub.Log? && Lane(k.tree, k.sub.replica) == lane ==>
          k.sub.counter <= top
      {
        var k :| k in rows;
        if k.sub.Log? && k.tree == lane.tree && k.sub.replica == lane.replica && k.sub.counter > top {
          assert k.sub.counter in Indexed(State(), lane);
          top := k.sub.counter;
        }
        rows := rows - {k};
      }
    }

    method ClaimsTooMuch(tree: Id, claim: map<Replica, nat>) returns (bad: bool)
      ensures bad == OverClaims(State(), tree, claim)
    {
      var todo := claim.Keys;
      while todo != {}
        invariant todo <= claim.Keys
        invariant forall r :: r in claim && r !in todo ==> WithinBound(State(), Lane(tree, r), claim[r])
      {
        var r :| r in todo;
        var bound := RetainedBound(Lane(tree, r));
        if claim[r] > bound { return true; }
        todo := todo - {r};
      }
      return false;
    }

    method FallsBelowFloor(tree: Id, claim: map<Replica, nat>) returns (bad: bool)
      ensures bad == BelowRatchet(State(), tree, claim)
    {
      var todo := floors.Keys;
      while todo != {}
        invariant todo <= floors.Keys
        invariant forall lane :: lane in floors && lane.tree == tree && lane !in todo ==>
          lane.replica in claim && claim[lane.replica] >= floors[lane]
      {
        var lane :| lane in todo;
        if lane.tree == tree && !(lane.replica in claim && claim[lane.replica] >= floors[lane]) { return true; }
        todo := todo - {lane};
      }
      return false;
    }

    method GoesBack(tree: Id, claim: map<Replica, nat>) returns (bad: bool)
      ensures bad == Regresses(State(), tree, claim)
    {
      var todo := covered.Keys;
      while todo != {}
        invariant todo <= covered.Keys
        invariant forall lane :: lane in covered && lane.tree == tree && lane !in todo ==>
          At(claim, lane.replica) >= covered[lane].counter
      {
        var lane :| lane in todo;
        if lane.tree == tree && (if lane.replica in claim then claim[lane.replica] else 0) < covered[lane].counter {
          return true;
        }
        todo := todo - {lane};
      }
      return false;
    }

    /** The old rows go, then one row per claimed replica is inserted. */
    method ReplaceCoverage(tree: Id, claim: map<Replica, nat>, tag: Tag)
      modifies this`covered
      ensures State() == Published(old(State()), tree, claim, tag)
    {
      covered := map lane | lane in covered && lane.tree != tree :: covered[lane];
      ghost var kept := covered;
      var todo := claim.Keys;
      while todo != {}
        invariant todo <= claim.Keys
        invariant forall lane: Lane :: lane.tree != tree ==>
          (lane in covered <==> lane in kept) && (lane in kept ==> covered[lane] == kept[lane])
        invariant forall lane: Lane :: lane.tree == tree ==>
          (lane in covered <==> lane.replica in claim && lane.replica !in todo) &&
          (lane in covered ==> covered[lane] == Coverage(claim[lane.replica], tag))
      {
        var r :| r in todo;
        covered := covered[Lane(tree, r) := Coverage(claim[r], tag)];
        todo := todo - {r};
      }
      forall lane: Lane
        ensures lane in covered <==> lane in Published(old(State()), tree, claim, tag).covered
        ensures lane in covered ==> covered[lane] == Published(old(State()), tree, claim, tag).covered[lane]
      {
        Gc.PublishedLane(old(State()), tree, claim, tag, lane);
      }
      assert covered == Published(old(State()), tree, claim, tag).covered;
    }

    method PutSnapshotBlob(p: Put, now: real) returns (reply: Reply)
      requires Known(State(), p.tree) && p.sub.Snapshot?
      modifies this`accounts, this`buckets, this`index, this`objects, this`covered
      ensures Outcome(State(), reply) == PutSnapshot(old(State()), p, now)
    {
      if p.covered.None? || !WellFormedCoverage(p.covered.value) { return BadRequest; }
      var claim := Clamped(p.covered.value);
      var bad := ClaimsTooMuch(p.tree, claim);
      if bad { return CoveredAnomaly; }
      bad := FallsBelowFloor(p.tree, claim);
      if bad { return CoveredAnomaly; }
      bad := GoesBack(p.tree, claim);
      if bad { return CoveredAnomaly; }
      var charge := ChargeWrite(p, PointerOnly, now);
      if !charge.Charged? { return Refusal(charge); }
      UpsertIndex(p, now, 0);
      ReplaceCoverage(p.tree, claim, Tag(p.body));
      return Accepted(Tag(p.body));
    }

    method PutBlob(p: Put, now: real) returns (reply: Reply)
      modifies this`accounts, this`buckets, this`index, this`objects, this`covered
      ensures Outcome(State(), reply) == ServerModel.PutBlob(old(State()), p, now)
    {
      if |p.body| > CapFor(p.sub) { return BadRequest; }
      if p.tree !in owners { return NotFound; }
      if owners[p.tree] !in accounts { return Internal; }
      match p.sub
      case Log(_, _) => reply := PutLogBlob(p, now);
      case Snapshot => reply := PutSnapshotBlob(p, now);
      case _ => reply := PutPointerBlob(p, now);
    }

    method GetBlob(slot: Slot) returns (fetch: Fetch)
      ensures fetch == ServerModel.GetBlob(State(), slot)
    {
      if slot.tree !in owners { return Missing; }
      if slot.sub.Log? && slot !in index {
        var lane := Lane(slot.tree, slot.sub.replica);
        if lane in floors && slot.sub.counter < floors[lane] { return Gone; }
        return Missing;
      }
      if slot in objects { return Served(objects[slot]); }
      return Missing;
    }

    // ----- frontier reports -----

    /** One upsert per reported replica. */
    method RecordReport(seat: Seat, frontier: map<Replica, nat>, now: real)
      modifies this`seen
      ensures State() == WithReport(old(State()), seat, frontier, now)
    {
      ghost var before := seen;
      var todo := frontier.Keys;
      while todo != {}
        invariant todo <= frontier.Keys
        invariant forall w :: Reports(w, seat, frontier) && w.replica !in todo ==>
          w in seen && seen[w] == Seen(Clamp(frontier[w.replica]), now)
        invariant forall w :: !Reports(w, seat, frontier) || w.replica in todo ==>
          (w in seen <==> w in before) && (w in seen ==> seen[w] == before[w])
      {
        var r :| r in todo;
        seen := seen[Watch(seat.tree, seat.member, r) := Seen(Clamp(frontier[r]), now)];
        todo := todo - {r};
      }
      ghost var after := WithReport(old(State()), seat, frontier, now).seen;
      forall w ensures (w in seen <==> w in after) && (w in seen ==> seen[w] == after[w]) {
        ReportRow(old(State()), seat, frontier, now, w);
      }
      assert seen == after;
    }

    method PutFrontier(seat: Seat, frontier: map<Replica, nat>, now: real) returns (reply: Reply)
      modifies this`seen
      ensures Outcome(State(), reply) == ServerModel.PutFrontier(old(State()), seat, frontier, now)
    {
      if !WellFormedReport(frontier) { return BadRequest; }
      if seat.tree !in owners { return NotFound; }
      if !(seat in access || owners[seat.tree] == seat.member) { return Forbidden; }
      RecordReport(seat, frontier, now);
      return Noted;
    }

    // ----- the sweep -----

    /** The in-window reports of current members, grouped by member. */
    method Gate2(tree: Id, since: real) returns (members: map<Id, map<Replica, nat>>)
      ensures IsGate(State(), tree, since, members)
    {
      members := map[];
      var rows := set w | w in seen && w.tree == tree && seen[w].at >= since &&
        (Seat(tree, w.member) in access || (tree in owners && owners[tree] == w.member));
      var todo := rows;
      while todo != {}
        invariant todo <= rows
        invariant forall m :: m in members <==> exists w :: w in rows - todo && w.member == m
        invariant forall m, r :: m in members ==>
          (r in members[m] <==> Watch(tree, m, r) in rows - todo) &&
          (r in members[m] ==> members[m][r] == seen[Watch(tree, m, r)].counter)
      {
        var w :| w in todo;
        var report := if w.member in members then members[w.member] else map[];
        members := members[w.member := report[w.replica := seen[w].counter]];
        todo := todo - {w};
      }
    }

    /** The least counter any member reports of the replica; a member that does not name it reports 0. */
    static method Constraint(members: map<Id, map<Replica, nat>>, replica: Replica) returns (g: Option<nat>)
      ensures g.None? <==> members == map[]
      ensures g.Some? ==> forall m :: m in members ==> g.value <= At(members[m], replica)
      ensures g.Some? ==> exists m :: m in members && g.value == At(members[m], replica)
    {
      g := None;
      var todo := members.Keys;
      while todo != {}
        invariant todo <= members.Keys
        invariant g.None? <==> todo == members.Keys
        invariant g.Some? ==> forall m :: m in members && m !in todo ==> g.value <= At(members[m], replica)
        invariant g.Some? ==> exists m :: m in members && g.value == At(members[m], replica)
      {
        var m :| m in todo;
        var counter := if replica in members[m] then members[m][replica] else 0;
        g := if g.None? || counter < g.value then Some(counter) else g;
        assert counter == At(members[m], replica);
        todo := todo - {m};
      }
    }

    /** One lane of a mark: the floor is raised, then one update marks the rows below it. */
    method MarkLane(lane: Lane, low: nat, existing: nat, retained: real, now: real) returns (hits: set<Slot>)
      requires existing == FloorOf(State(), lane)
      modifies this`floors, this`index
      ensures floors == old(floors)[lane := Max(existing, low)]
      ensures hits == set k | k in old(index) && k.sub.Log? && Lane(k.tree, k.sub.replica) == lane &&
        old(index)[k].pending.None? && k.sub.counter < Max(existing, low) && old(index)[k].created < now - retained
      ensures index == map k | k in old(index) ::
        if k in hits then old(index)[k].(pending := Some(now)) else old(index)[k]
    {
      var raised := if existing >= low then existing else low;
      var stored := if lane in floors then floors[lane] else 0;
      floors := floors[lane := if stored > raised then stored else raised];
      hits := {};
      if raised > 0 {
        hits := set k | k in index && k.sub.Log? && Lane(k.tree, k.sub.replica) == lane &&
          index[k].pending.None? && k.sub.counter < raised && index[k].created < now - retained;
      }
      index := map k | k in index :: if k in hits then index[k].(pending := Some(now)) else index[k];
    }

    /** One trusted lane of `MarkTree`, when `done` are marked already: both gates, then its mark. */
    method MarkNext(ghost was: Db, tree: Id, since: real, now: real, ghost done: set<Lane>, lane: Lane,
                    members: map<Id, map<Replica, nat>>, existing: nat, retained: real, marked: nat)
      returns (total: nat)
      requires lane in TrustedLanes(was, tree) && lane !in done && lane in covered
      requires Progress(was, tree, since, now, done, State(), marked)
      requires IsGate(was, tree, since, members)
      requires existing == FloorOf(was, lane) && retained == RetainedFor(was, tree)
      modifies this`floors, this`index
      ensures Progress(was, tree, since, now, done + {lane}, State(), total)
    {
      var g := Constraint(members, lane.replica);
      var counter := covered[lane].counter;
      var low := if g.None? then counter else Min(counter, g.value);
      LowIsLowered(was, lane, members, g, since, counter);
      OtherLanes(was, tree, since, now, done, lane);
      ghost var before := State();
      var hits := MarkLane(lane, low, existing, retained, now);
      LaneDone(was, tree, since, now, done, lane, before, State(), hits, retained);
      total := marked + |hits|;
    }

    method MarkTree(tree: Id, since: real, now: real) returns (marked: nat)
      modifies this`floors, this`index
      ensures State() == Mark(old(State()), tree, since, now)
      ensures marked == if tree in old(owners) then |Hits(old(State()), tree, since, now, TrustedLanes(old(State()), tree))|
                        else 0
    {
      ghost var was := State();
      marked := 0;
      if tree !in owners { return; }
      var retained := if owners[tree] in accounts then accounts[owners[tree]].retained else 0.0;
      var trusted := Trustworthy(tree);
      var members := Gate2(tree, since);
      NothingMarked(was, tree, since, now);
      marked := MarkLanes(was, tree, since, now, trusted, members, floors, retained);
      MarkedAll(was, tree, since, now);
    }

    /** The loop of `MarkTree` over the trusted coverage. */
    method MarkLanes(ghost was: Db, tree: Id, since: real, now: real, trusted: set<Lane>,
                     members: map<Id, map<Replica, nat>>, before: map<Lane, nat>, retained: real)
      returns (marked: nat)
      requires trusted == TrustedLanes(was, tree) && tree in owners && covered == was.covered
      requires Progress(was, tree, since, now, {}, State(), 0)
      requires IsGate(was, tree, since, members)
      requires before == was.floors && retained == RetainedFor(was, tree)
      modifies this`floors, this`index
      ensures Progress(was, tree, since, now, trusted, State(), marked)
    {
      marked := 0;
      ghost var done: set<Lane> := {};
      var todo := trusted;
      while todo != {}
        invariant todo !! done && done + todo == trusted
        invariant Progress(was, tree, since, now, done, State(), marked)
      {
        var lane :| lane in todo;
        var existing := if lane in before then before[lane] else 0;
        marked := MarkNext(was, tree, since, now, done, lane, members, existing, retained, marked);
        done, todo := done + {lane}, todo - {lane};
      }
      assert done == trusted;
    }

    /** The coverage rows still bound to the live snapshot; none without one. */
    method Trustworthy(tree: Id) returns (trusted: set<Lane>)
      ensures trusted == TrustedLanes(State(), tree)
    {
      var snapshot := Slot(tree, Snapshot);
      if snapshot !in index { return {}; }
      trusted := set lane | lane in covered && lane.tree == tree && covered[lane].tag == index[snapshot].tag;
    }

    /** One row, if it is still marked: its bytes are credited with its delete. */
    method ReapRow(slot: Slot, purge: bool) returns (size: Option<nat>)
      modifies this`accounts, this`index, this`objects
      ensures State() == Reap(old(State()), slot, purge)
      ensures size == if Reapable(old(State()), slot) then Some(old(index)[slot].size) else None
      ensures |index| == |old(index)| - if size.Some? then 1 else 0
    {
      if !(slot in index && slot.tree in owners && index[slot].pending.Some?) { return None; }
      ghost var rows := index.Keys;
      size := Some(index[slot].size);
      index := index - {slot};
      assert index.Keys == rows - {slot};
      CreditStorage(owners[slot.tree], size.value);
      if purge { objects := objects - {slot}; }
    }

    /** The rows listed as due, one transaction each; a row no longer marked is passed over. `purged` says whose object
        delete succeeds. */
    method ReapMarked(due: seq<Slot>, purged: set<Slot>) returns (reaped: nat, reclaimed: nat)
      modifies this`accounts, this`index, this`objects
      ensures State() == ReapAll(old(State()), due, purged)
      ensures reaped == |old(index)| - |index|
      ensures reclaimed == Reclaimed(old(State()), due, purged)
    {
      reaped, reclaimed := 0, 0;
      for i := 0 to |due|
        invariant State() == ReapAll(old(State()), due[..i], purged)
        invariant reaped == |old(index)| - |index|
        invariant reclaimed == Reclaimed(old(State()), due[..i], purged)
      {
        assert due[..i + 1][..i] == due[..i];
        var size := ReapRow(due[i], due[i] in purged);
        if size.Some? { reaped, reclaimed := reaped + 1, reclaimed + size.value; }
      }
      assert due[..|due|] == due;
    }

    /** The rows past the deletion grace, in some order. */
    method ListDue(before: real) returns (due: seq<Slot>)
      ensures forall k :: k in due <==> Due(State(), k, before)
    {
      due := [];
      var todo := index.Keys;
      while todo != {}
        invariant todo <= index.Keys
        invariant forall k :: k in due <==> k !in todo && Due(State(), k, before)
      {
        var k :| k in todo;
        if k.tree in owners && index[k].pending.Some? && index[k].pending.value <= before { due := due + [k]; }
        todo := todo - {k};
      }
    }

    /** The whole reap: exactly the due rows go, the others stay as they were. */
    method ReapDue(before: real, purged: set<Slot>) returns (reaped: nat, reclaimed: nat)
      modifies this`accounts, this`index, this`objects
      ensures forall k :: k in index <==> k in old(index) && !Due(old(State()), k, before)
      ensures forall k :: k in index ==> index[k] == old(index)[k]
      ensures reaped == |old(index)| - |index|
    {
      var due := ListDue(before);
      ReapAllTakes(State(), due, purged);
      reaped, reclaimed := ReapMarked(due, purged);
    }
  }
}
