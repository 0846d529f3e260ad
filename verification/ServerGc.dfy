/**
  The safety of log collection: what every step of the server keeps of the floors, the published coverage, the marks
  and the index, and how far one mark can raise a floor.
*/
module ServerGc {
  import opened Wrappers
  import opened Bytes
  import opened Counters
  import opened ServerModel
  import opened Meter

  // ----- the invariant -----

  /** Every index row has its object, and every pointer object has its row. */
  ghost predicate Stored(db: Db) {
    (forall k :: k in db.index ==>
      k in db.objects && k.tree in db.owners && db.index[k].tag == Tag(db.objects[k]) && db.index[k].size == |db.objects[k]|)
    && forall k :: k in db.objects && !k.sub.Log? ==> k in db.index
  }

  /** Every coverage row is bound to the live snapshot. */
  ghost predicate Live(db: Db) {
    forall lane :: lane in db.covered ==> Trusted(db, lane)
  }

  /** Floors stay within the published coverage. */
  ghost predicate Capped(db: Db) {
    forall lane :: lane in db.floors ==> lane in db.covered && db.floors[lane] <= db.covered[lane].counter
  }

  /** Coverage stays within what the tree retains: the floor, or one past an indexed counter. */
  ghost predicate Backed(db: Db) {
    forall lane :: lane in db.covered ==> Retains(db, lane, db.covered[lane].counter)
  }

  /** A reaped or reapable row is a log row. */
  ghost predicate Doomed(db: Db, k: Slot) {
    k.sub.Log? && k.sub.counter < FloorOf(db, Lane(k.tree, k.sub.replica))
  }

  /** Only log rows below the floor are marked. */
  ghost predicate MarkedBelow(db: Db) {
    forall k :: k in db.index && db.index[k].pending.Some? ==> Doomed(db, k)
  }

  ghost predicate Sound(db: Db) {
    Stored(db) && Live(db) && Capped(db) && Backed(db) && MarkedBelow(db)
  }

  // ----- each step keeps it -----

  /** An index that only grew retains all it did. */
  lemma RetainsMore(before: Db, after: Db, lane: Lane, counter: nat)
    requires Retains(before, lane, counter) && FloorOf(before, lane) <= FloorOf(after, lane)
    requires forall k :: k in before.index && k.sub.Log? ==>
               k in after.index || k.sub.counter < FloorOf(after, Lane(k.tree, k.sub.replica))
    ensures Retains(after, lane, counter)
  {
    if counter > FloorOf(before, lane) {
      var n :| n in Indexed(before, lane) && counter <= n + 1;
      var k := Slot(lane.tree, Log(lane.replica, n));
      assert k in before.index;
      if k in after.index { assert n in Indexed(after, lane); }
    }
  }

  lemma AllRetainMore(before: Db, after: Db)
    requires Backed(before) && before.covered == after.covered
    requires forall lane :: FloorOf(before, lane) <= FloorOf(after, lane)
    requires forall k :: k in before.index && k.sub.Log? ==>
               k in after.index || k.sub.counter < FloorOf(after, Lane(k.tree, k.sub.replica))
    ensures Backed(after)
  {
    forall lane | lane in after.covered ensures Retains(after, lane, after.covered[lane].counter) {
      RetainsMore(before, after, lane, after.covered[lane].counter);
    }
  }

  lemma QuietKeeps(before: Db, after: Db)
    requires Sound(before) && after.index == before.index && after.objects == before.objects
    requires after.floors == before.floors && after.covered == before.covered
    requires before.owners.Keys <= after.owners.Keys
    ensures Sound(after)
  {
    AllRetainMore(before, after);
    forall lane | lane in after.covered ensures Trusted(after, lane) { assert Trusted(before, lane); }
  }

  lemma WrittenKeeps(db: Db, p: Put, now: real, charged: nat)
    requires Sound(db) && p.tree in db.owners && !p.sub.Snapshot?
    ensures Sound(Written(db, p, now, charged))
  {
    var after := Written(db, p, now, charged);
    AllRetainMore(db, after);
    assert Live(after) by {
      forall lane | lane in after.covered ensures Trusted(after, lane) { assert Trusted(db, lane); }
    }
  }

  /** A put that goes through is its charge, then the write. */
  lemma PutSplits(db: Db, p: Put, axis: Axis, now: real) returns (mid: Db, charged: nat)
    requires Known(db, p.tree)
    ensures var out := ChargeThenWrite(db, p, axis, now);
      out.reply.Accepted? ==> out.db == Written(mid, p, now, charged)
    ensures !ChargeThenWrite(db, p, axis, now).reply.Accepted? ==> ChargeThenWrite(db, p, axis, now).db == db
    ensures mid == db.(accounts := mid.accounts, buckets := mid.buckets)
    ensures charged == if axis.Accumulating? then |p.body| else 0
  {
    var charge := ChargeFor(db, p, axis, now);
    mid := if charge.Charged? then Debited(db, p, charge) else db;
    charged := if axis.Accumulating? then |p.body| else 0;
  }

  lemma WriteKeeps(db: Db, p: Put, axis: Axis, now: real)
    requires Sound(db) && Known(db, p.tree) && !p.sub.Snapshot?
    ensures Sound(ChargeThenWrite(db, p, axis, now).db)
  {
    var mid, charged := PutSplits(db, p, axis, now);
    QuietKeeps(db, mid);
    WrittenKeeps(mid, p, now, charged);
  }

  /** The coverage table after a publication, lane by lane. */
  lemma PublishedLane(db: Db, tree: Id, covered: map<Replica, nat>, tag: Tag, lane: Lane)
    ensures var after := Published(db, tree, covered, tag).covered;
      if lane.tree == tree then
        (lane in after <==> lane.replica in covered) &&
        (lane in after ==> after[lane] == Coverage(covered[lane.replica], tag))
      else
        (lane in after <==> lane in db.covered) && (lane in after ==> after[lane] == db.covered[lane])
  {
    if lane.tree == tree { assert Lane(tree, lane.replica) == lane; }
  }

  lemma PublishedLive(db: Db, p: Put, now: real, covered: map<Replica, nat>, charged: nat, lane: Lane)
    requires Live(db) && p.sub.Snapshot?
    ensures var after := Published(Written(db, p, now, charged), p.tree, covered, Tag(p.body));
      lane in after.covered ==> Trusted(after, lane)
  {
    var written := Written(db, p, now, charged);
    PublishedLane(written, p.tree, covered, Tag(p.body), lane);
    if lane.tree != p.tree && lane in db.covered { assert Trusted(db, lane); }
  }

  lemma PublishedBacked(db: Db, p: Put, now: real, covered: map<Replica, nat>, charged: nat, lane: Lane)
    requires Backed(db) && p.sub.Snapshot? && !OverClaims(db, p.tree, covered)
    ensures var after := Published(Written(db, p, now, charged), p.tree, covered, Tag(p.body));
      lane in after.covered ==> Retains(after, lane, after.covered[lane].counter)
  {
    var written := Written(db, p, now, charged);
    var after := Published(written, p.tree, covered, Tag(p.body));
    PublishedLane(written, p.tree, covered, Tag(p.body), lane);
    if lane in after.covered { RetainsMore(db, after, lane, after.covered[lane].counter); }
  }

  lemma PublishedCapped(db: Db, p: Put, now: real, covered: map<Replica, nat>, charged: nat, lane: Lane)
    requires Capped(db) && p.sub.Snapshot? && !BelowRatchet(db, p.tree, covered)
    ensures var after := Published(Written(db, p, now, charged), p.tree, covered, Tag(p.body));
      lane in after.floors ==> lane in after.covered && after.floors[lane] <= after.covered[lane].counter
  {
    PublishedLane(Written(db, p, now, charged), p.tree, covered, Tag(p.body), lane);
  }

  lemma PublishedStored(db: Db, p: Put, now: real, covered: map<Replica, nat>, charged: nat)
    requires Stored(db) && MarkedBelow(db) && p.tree in db.owners && p.sub.Snapshot?
    ensures var after := Published(Written(db, p, now, charged), p.tree, covered, Tag(p.body));
      Stored(after) && MarkedBelow(after)
  {
    WrittenStored(db, p, now, charged);
    var written := Written(db, p, now, charged);
    var after := Published(written, p.tree, covered, Tag(p.body));
    assert after == written.(covered := after.covered);
    forall k | k in after.index && after.index[k].pending.Some? ensures Doomed(after, k) {
      assert Doomed(written, k);
    }
  }

  lemma WrittenStored(db: Db, p: Put, now: real, charged: nat)
    requires Stored(db) && MarkedBelow(db) && p.tree in db.owners && p.sub.Snapshot?
    ensures Stored(Written(db, p, now, charged)) && MarkedBelow(Written(db, p, now, charged))
  {
    var after := Written(db, p, now, charged);
    forall k | k in after.index && after.index[k].pending.Some? ensures Doomed(after, k) {
      assert k in db.index && db.index[k].pending.Some?;
      assert Doomed(db, k);
    }
  }

  /** A coverage that passes the guards, bound to the snapshot just written. */
  lemma PublishedKeeps(db: Db, p: Put, now: real, covered: map<Replica, nat>, charged: nat)
    requires Sound(db) && p.tree in db.owners && p.sub.Snapshot?
    requires !OverClaims(db, p.tree, covered) && !BelowRatchet(db, p.tree, covered)
    ensures Sound(Published(Written(db, p, now, charged), p.tree, covered, Tag(p.body)))
  {
    var after := Published(Written(db, p, now, charged), p.tree, covered, Tag(p.body));
    PublishedStored(db, p, now, covered, charged);
    assert Live(after) by {
      forall lane | lane in after.covered ensures Trusted(after, lane) {
        PublishedLive(db, p, now, covered, charged, lane);
      }
    }
    assert Backed(after) by {
      forall lane | lane in after.covered ensures Retains(after, lane, after.covered[lane].counter) {
        PublishedBacked(db, p, now, covered, charged, lane);
      }
    }
    assert Capped(after) by {
      forall lane | lane in after.floors
        ensures lane in after.covered && after.floors[lane] <= after.covered[lane].counter
      {
        PublishedCapped(db, p, now, covered, charged, lane);
      }
    }
  }

  lemma SnapshotKeeps(db: Db, p: Put, now: real)
    requires Sound(db) && Known(db, p.tree) && p.sub.Snapshot?
    ensures Sound(PutSnapshot(db, p, now).db)
  {
    var mid, charged := PutSplits(db, p, PointerOnly, now);
    if PutSnapshot(db, p, now).reply.Accepted? {
      QuietKeeps(db, mid);
      var covered := Clamped(p.covered.value);
      GuardsReadTheSame(db, mid, p.tree, covered);
      PublishedKeeps(mid, p, now, covered, charged);
    }
  }

  lemma GuardsReadTheSame(db: Db, mid: Db, tree: Id, covered: map<Replica, nat>)
    requires mid == db.(accounts := mid.accounts, buckets := mid.buckets)
    ensures OverClaims(db, tree, covered) == OverClaims(mid, tree, covered)
    ensures BelowRatchet(db, tree, covered) == BelowRatchet(mid, tree, covered)
  {
    forall lane ensures Indexed(db, lane) == Indexed(mid, lane) { }
    forall r | r in covered
      ensures WithinBound(db, Lane(tree, r), covered[r]) == WithinBound(mid, Lane(tree, r), covered[r])
    {
    }
  }

  lemma PutKeeps(db: Db, p: Put, now: real)
    requires Sound(db)
    ensures Sound(PutBlob(db, p, now).db)
  {
    if |p.body| <= CapFor(p.sub) && Known(db, p.tree) {
      match p.sub
      case Snapshot => SnapshotKeeps(db, p, now);
      case Log(_, _) => WriteKeeps(db, p, Accumulating, now);
      case _ =>
        WriteKeeps(db, p, Accumulating, now);
        WriteKeeps(db, p, PointerOnly, now);
    }
  }

  /** A mark raises floors, and never above the coverage. */
  lemma MarkRaises(db: Db, tree: Id, since: real, now: real, lane: Lane)
    requires Capped(db)
    ensures var after := Mark(db, tree, since, now);
      FloorOf(db, lane) <= FloorOf(after, lane) <= CoveredOf(db, lane)
    ensures lane in Mark(db, tree, since, now).floors ==> lane in db.covered
  {
  }

  /** What a mark touches: floors of covered lanes, and the marks of log rows it found below them. */
  lemma MarkFrame(db: Db, tree: Id, since: real, now: real)
    ensures var after := Mark(db, tree, since, now);
      after == db.(floors := after.floors, index := after.index) && after.index.Keys == db.index.Keys
    ensures forall k :: k in db.index ==>
      var row := Mark(db, tree, since, now).index[k];
      row == db.index[k].(pending := row.pending) &&
      (row.pending == db.index[k].pending || (tree in db.owners && Marks(db, tree, since, now, k)))
  {
  }

  lemma MarkedIsBelow(db: Db, tree: Id, since: real, now: real, k: Slot)
    requires tree in db.owners && Marks(db, tree, since, now, k)
    ensures Doomed(Mark(db, tree, since, now), k)
  {
  }

  lemma MarkKeeps(db: Db, tree: Id, since: real, now: real)
    requires Sound(db)
    ensures Sound(Mark(db, tree, since, now))
  {
    var after := Mark(db, tree, since, now);
    MarkFrame(db, tree, since, now);
    forall lane
      ensures FloorOf(db, lane) <= FloorOf(after, lane) <= CoveredOf(db, lane)
      ensures lane in after.floors ==> lane in db.covered
    {
      MarkRaises(db, tree, since, now, lane);
    }
    forall k | k in after.index && after.index[k].pending.Some? ensures Doomed(after, k) {
      if db.index[k].pending.Some? { assert Doomed(db, k); } else { MarkedIsBelow(db, tree, since, now, k); }
    }
    MarkKeepsRest(db, after);
  }

  lemma MarkKeepsRest(db: Db, after: Db)
    requires Sound(db) && after == db.(floors := after.floors, index := after.index)
    requires after.index.Keys == db.index.Keys
    requires forall k :: k in db.index ==> after.index[k] == db.index[k].(pending := after.index[k].pending)
    requires forall lane :: FloorOf(db, lane) <= FloorOf(after, lane) <= CoveredOf(db, lane)
    requires forall lane :: lane in after.floors ==> lane in db.covered
    requires MarkedBelow(after)
    ensures Sound(after)
  {
    AllRetainMore(db, after);
    forall lane | lane in after.covered ensures Trusted(after, lane) { assert Trusted(db, lane); }
    forall lane | lane in after.floors
      ensures lane in after.covered && after.floors[lane] <= after.covered[lane].counter
    {
      assert FloorOf(after, lane) <= CoveredOf(db, lane);
    }
  }

  lemma ReapKeeps(db: Db, slot: Slot, purged: bool)
    requires Sound(db)
    ensures Sound(Reap(db, slot, purged))
  {
    var after := Reap(db, slot, purged);
    if after != db {
      assert Doomed(db, slot);
      AllRetainMore(db, after);
      forall lane | lane in after.covered ensures Trusted(after, lane) { assert Trusted(db, lane); }
    }
  }

  ghost predicate SameTables(db: Db, after: Db) {
    after.index == db.index && after.objects == db.objects && after.floors == db.floors && after.covered == db.covered &&
    after.accounts == db.accounts && db.owners.Keys <= after.owners.Keys &&
    forall t :: t in db.owners ==> after.owners[t] == db.owners[t]
  }

  lemma ReportFrame(db: Db, seat: Seat, frontier: map<Replica, nat>, now: real)
    ensures SameTables(db, PutFrontier(db, seat, frontier, now).db)
  {
    WithReportFrame(db, seat, frontier, now);
    RefusedOrRecorded(db, seat, frontier, now);
  }

  lemma WithReportFrame(db: Db, seat: Seat, frontier: map<Replica, nat>, now: real)
    ensures SameTables(db, WithReport(db, seat, frontier, now))
  {
  }

  lemma RefusedOrRecorded(db: Db, seat: Seat, frontier: map<Replica, nat>, now: real)
    ensures PutFrontier(db, seat, frontier, now).db in {db, WithReport(db, seat, frontier, now)}
  {
  }

  lemma CreateFrame(db: Db, tree: Id, owner: Id)
    ensures SameTables(db, CreateTree(db, tree, owner))
  {
  }

  lemma MembersFrame(db: Db, tree: Id, members: set<Id>)
    ensures SameTables(db, SetMembers(db, tree, members))
  {
  }

  /** Reports and membership leave the tables of the collector alone. */
  lemma OthersFrame(db: Db, step: Step)
    requires step.ReportStep? || step.CreateStep? || step.MembersStep?
    ensures SameTables(db, Next(db, step))
  {
    if step.ReportStep? {
      ReportFrame(db, step.seat, step.frontier, step.now);
    } else if step.CreateStep? {
      CreateFrame(db, step.tree, step.owner);
    } else {
      MembersFrame(db, step.tree, step.members);
    }
  }

  lemma StepKeeps(db: Db, step: Step)
    requires Sound(db)
    ensures Sound(Next(db, step))
  {
    if step.PutStep? {
      PutKeeps(db, step.p, step.now);
    } else if step.MarkStep? {
      MarkKeeps(db, step.tree, step.since, step.now);
    } else if step.ReapStep? {
      ReapKeeps(db, step.slot, step.purged);
    } else {
      OthersFrame(db, step);
      QuietKeeps(db, Next(db, step));
    }
  }

  // ----- the ratchets -----

  lemma WriteFrame(db: Db, p: Put, axis: Axis, now: real)
    requires Known(db, p.tree)
    ensures var after := ChargeThenWrite(db, p, axis, now).db;
      after.floors == db.floors && after.covered == db.covered && after.owners == db.owners
  {
  }

  lemma PutRatchets(db: Db, p: Put, now: real, lane: Lane)
    ensures FloorOf(db, lane) <= FloorOf(PutBlob(db, p, now).db, lane)
    ensures CoveredOf(db, lane) <= CoveredOf(PutBlob(db, p, now).db, lane)
  {
    if |p.body| <= CapFor(p.sub) && Known(db, p.tree) {
      WriteFrame(db, p, Accumulating, now);
      WriteFrame(db, p, PointerOnly, now);
      if p.sub.Snapshot? && PutSnapshot(db, p, now).reply.Accepted? { SnapshotRatchets(db, p, now, lane); }
    }
  }

  lemma SnapshotRatchets(db: Db, p: Put, now: real, lane: Lane)
    requires Known(db, p.tree) && p.sub.Snapshot? && PutSnapshot(db, p, now).reply.Accepted?
    ensures var after := PutSnapshot(db, p, now).db;
      FloorOf(db, lane) <= FloorOf(after, lane) && CoveredOf(db, lane) <= CoveredOf(after, lane)
  {
    var mid, charged := PutSplits(db, p, PointerOnly, now);
    PublishedRatchets(db, mid, p, now, charged, lane);
  }

  lemma PublishedRatchets(db: Db, mid: Db, p: Put, now: real, charged: nat, lane: Lane)
    requires p.covered.Some? && !Regresses(db, p.tree, Clamped(p.covered.value))
    requires mid == db.(accounts := mid.accounts, buckets := mid.buckets)
    ensures var after := Published(Written(mid, p, now, charged), p.tree, Clamped(p.covered.value), Tag(p.body));
      FloorOf(db, lane) <= FloorOf(after, lane) && CoveredOf(db, lane) <= CoveredOf(after, lane)
  {
    if lane in db.covered && lane.tree == p.tree {
      assert At(Clamped(p.covered.value), lane.replica) >= db.covered[lane].counter;
    }
  }

  /** No step lowers a floor or a published counter. */
  lemma StepRatchets(db: Db, step: Step, lane: Lane)
    requires Sound(db)
    ensures FloorOf(db, lane) <= FloorOf(Next(db, step), lane)
    ensures CoveredOf(db, lane) <= CoveredOf(Next(db, step), lane)
  {
    if step.PutStep? {
      PutRatchets(db, step.p, step.now, lane);
    } else if step.MarkStep? {
      MarkRaises(db, step.tree, step.since, step.now, lane);
      MarkFrame(db, step.tree, step.since, step.now);
    }
  }

  /** Every active member has reported at least `x` of the replica. */
  ghost predicate AllReport(db: Db, lane: Lane, since: real, x: nat) {
    forall m :: m in Active(db, lane.tree, since) ==> x <= ReportOf(db, Watch(lane.tree, m, lane.replica), since)
  }

  lemma LoweredIs(db: Db, lane: Lane, counter: nat, since: real, x: nat)
    ensures x <= Lowered(db, lane, counter, since) <==> x <= counter && AllReport(db, lane, since, x)
  {
    var reports := set m | m in Active(db, lane.tree, since) :: ReportOf(db, Watch(lane.tree, m, lane.replica), since);
    var low := Lowered(db, lane, counter, since);
    assert low == Lowest(reports + {counter});
    forall m | m in Active(db, lane.tree, since)
      ensures low <= ReportOf(db, Watch(lane.tree, m, lane.replica), since)
    {
      assert ReportOf(db, Watch(lane.tree, m, lane.replica), since) in reports + {counter};
    }
    assert counter in reports + {counter};
    assert low in reports + {counter};
  }

  lemma MarkedFloor(db: Db, tree: Id, since: real, now: real, lane: Lane) returns (low: nat)
    requires Live(db) && tree in db.owners && lane.tree == tree && lane in db.covered
    ensures low == Lowered(db, lane, db.covered[lane].counter, since)
    ensures FloorOf(Mark(db, tree, since, now), lane) == Max(FloorOf(db, lane), low)
  {
    assert Trusted(db, lane);
    low := Lowered(db, lane, db.covered[lane].counter, since);
  }

  lemma MarkedFloorIs(db: Db, since: real, now: real, lane: Lane, x: nat) returns (low: nat)
    requires Live(db) && lane.tree in db.owners && lane in db.covered
    ensures FloorOf(Mark(db, lane.tree, since, now), lane) == Max(FloorOf(db, lane), low)
    ensures x <= low <==> x <= db.covered[lane].counter && AllReport(db, lane, since, x)
  {
    low := MarkedFloor(db, lane.tree, since, now, lane);
    LoweredIs(db, lane, db.covered[lane].counter, since, x);
  }

  /**
    How high one mark lifts the floor of a covered replica: exactly as far as the old floor, or as the coverage where
    every active member has reported at least as much.
  */
  lemma MarkLiftsTo(db: Db, tree: Id, since: real, now: real, r: Replica, x: nat)
    requires Sound(db) && tree in db.owners && Lane(tree, r) in db.covered
    ensures x <= FloorOf(Mark(db, tree, since, now), Lane(tree, r)) <==>
      x <= FloorOf(db, Lane(tree, r)) ||
      (x <= CoveredOf(db, Lane(tree, r)) && AllReport(db, Lane(tree, r), since, x))
  {
    var low := MarkedFloorIs(db, since, now, Lane(tree, r), x);
  }
}
