/**
  What the write meter means for a member: over any stretch of a run in which the member is not removed from the tree,
  the server accepts at most the burst and what the rate has delivered of that member's puts to the tree.
*/
module SeatQuota {
  import opened Wrappers
  import opened ServerModel
  import opened Meter
  import opened ServerRuns

  predicate IsSeat(step: Step, seat: Seat) {
    step.PutStep? && step.p.tree == seat.tree && step.p.member == seat.member
  }

  predicate Accepted(db: Db, step: Step, seat: Seat) {
    IsSeat(step, seat) && PutBlob(db, step.p, step.now).reply.Accepted?
  }

  /** How many of the member's puts the steps from `i` up to `j` accept. */
  ghost function AcceptedPuts(run: Run, i: nat, j: nat, seat: Seat): nat
    requires IsRun(run) && i <= j < |run.states|
    decreases j
  {
    if i == j then 0
    else AcceptedPuts(run, i, j - 1, seat) + if Accepted(run.states[j - 1], run.steps[j - 1], seat) then 1 else 0
  }

  /** The list keeps the member, so its bucket stays. */
  predicate Keeps(db: Db, step: Step, seat: Seat) {
    step.MembersStep? && step.tree == seat.tree ==>
      seat.member in step.members || (seat.tree in db.owners && seat.member == db.owners[seat.tree])
  }

  /** The plan of the account that pays for the tree. */
  ghost predicate PaysFor(db: Db, tree: Id, rate: real, burst: nat) {
    Known(db, tree) && db.accounts[db.owners[tree]].rate == rate && db.accounts[db.owners[tree]].burst == burst
  }

  /** The meter's tables after a charge that went through; the trees are the same. */
  ghost predicate Charges(db: Db, p: Put, now: real, axis: Axis, after: Db)
    requires Known(db, p.tree)
  {
    var charge := ChargeFor(db, p, axis, now);
    charge.Charged? && after.owners == db.owners && after.accounts == Debited(db, p, charge).accounts &&
    after.buckets == Debited(db, p, charge).buckets
  }

  lemma WriteCharges(db: Db, p: Put, axis: Axis, now: real)
    requires Known(db, p.tree) && ChargeThenWrite(db, p, axis, now).reply.Accepted?
    ensures Charges(db, p, now, axis, ChargeThenWrite(db, p, axis, now).db)
  {
  }

  lemma SnapshotCharges(db: Db, p: Put, now: real)
    requires Known(db, p.tree) && p.sub.Snapshot? && PutSnapshot(db, p, now).reply.Accepted?
    ensures Charges(db, p, now, PointerOnly, PutSnapshot(db, p, now).db)
  {
    WriteCharges(db, p, PointerOnly, now);
  }

  /** An accepted put is charged once. */
  lemma PutCharges(db: Db, p: Put, now: real) returns (axis: Axis)
    requires PutBlob(db, p, now).reply.Accepted?
    ensures Known(db, p.tree) && Charges(db, p, now, axis, PutBlob(db, p, now).db)
  {
    axis := if p.ifAbsent && !p.sub.Snapshot? then Accumulating else PointerOnly;
    if p.sub.Snapshot? {
      SnapshotCharges(db, p, now);
    } else {
      WriteCharges(db, p, axis, now);
    }
  }

  lemma ChargeKeepsPlan(db: Db, p: Put, now: real, axis: Axis, after: Db, tree: Id, rate: real, burst: nat)
    requires PaysFor(db, tree, rate, burst) && Known(db, p.tree) && Charges(db, p, now, axis, after)
    ensures PaysFor(after, tree, rate, burst)
  {
  }

  lemma PutKeepsPlan(db: Db, p: Put, now: real, tree: Id, rate: real, burst: nat)
    requires PaysFor(db, tree, rate, burst)
    ensures PaysFor(PutBlob(db, p, now).db, tree, rate, burst)
  {
    PutRows(db, p, now);
    if PutBlob(db, p, now).reply.Accepted? {
      var axis := PutCharges(db, p, now);
      ChargeKeepsPlan(db, p, now, axis, PutBlob(db, p, now).db, tree, rate, burst);
    }
  }

  lemma StepKeepsPlan(db: Db, step: Step, tree: Id, rate: real, burst: nat)
    requires PaysFor(db, tree, rate, burst)
    ensures PaysFor(Next(db, step), tree, rate, burst)
  {
    if step.PutStep? { PutKeepsPlan(db, step.p, step.now, tree, rate, burst); }
  }

  /** An accepted put is one debit of its own seat's bucket. */
  lemma PutDebits(db: Db, p: Put, now: real, seat: Seat, rate: real, burst: nat)
    requires PaysFor(db, seat.tree, rate, burst)
    ensures var out := PutBlob(db, p, now);
            var before := BucketOf(db, seat);
            if out.reply.Accepted? && seat == Seat(p.tree, p.member) then
              Admits(before, rate, burst, now) && BucketOf(out.db, seat) == Some(Debit(before, rate, burst, now))
            else BucketOf(out.db, seat) == before
  {
    PutRows(db, p, now);
    if PutBlob(db, p, now).reply.Accepted? {
      var axis := PutCharges(db, p, now);
      ChargeDebits(db, p, now, axis, PutBlob(db, p, now).db, seat, rate, burst);
    }
  }

  lemma ChargeDebits(db: Db, p: Put, now: real, axis: Axis, after: Db, seat: Seat, rate: real, burst: nat)
    requires PaysFor(db, seat.tree, rate, burst) && Known(db, p.tree) && Charges(db, p, now, axis, after)
    ensures var before := BucketOf(db, seat);
            if seat == Seat(p.tree, p.member) then
              Admits(before, rate, burst, now) && BucketOf(after, seat) == Some(Debit(before, rate, burst, now))
            else BucketOf(after, seat) == before
  {
  }

  /** Other steps leave the bucket of a member who stays. */
  lemma StepSparesBucket(db: Db, step: Step, seat: Seat)
    requires !step.PutStep? && Keeps(db, step, seat)
    ensures BucketOf(Next(db, step), seat) == BucketOf(db, seat)
  {
  }

  lemma StepDebits(db: Db, step: Step, seat: Seat, rate: real, burst: nat)
    requires PaysFor(db, seat.tree, rate, burst) && Keeps(db, step, seat)
    ensures var before, after := BucketOf(db, seat), BucketOf(Next(db, step), seat);
            if Accepted(db, step, seat) then
              Admits(before, rate, burst, step.now) && after == Some(Debit(before, rate, burst, step.now))
            else after == before
  {
    if step.PutStep? {
      PutDebits(db, step.p, step.now, seat, rate, burst);
    } else {
      StepSparesBucket(db, step, seat);
    }
  }

  /** The clock of the member's puts does not go back, and stays between `start` and `end`. */
  ghost predicate Timed(run: Run, i: nat, j: nat, seat: Seat, start: real, end: real)
    requires IsRun(run) && i <= j < |run.states|
  {
    && (forall k :: i <= k < j && IsSeat(run.steps[k], seat) ==> start <= run.steps[k].now <= end)
    && (forall k, l :: i <= k < l < j && IsSeat(run.steps[k], seat) && IsSeat(run.steps[l], seat) ==>
          run.steps[k].now <= run.steps[l].now)
  }

  ghost predicate Stays(run: Run, i: nat, j: nat, seat: Seat)
    requires IsRun(run) && i <= j < |run.states|
  {
    forall k :: i <= k < j ==> Keeps(run.states[k], run.steps[k], seat)
  }

  lemma {:induction false} PlanHolds(run: Run, i: nat, j: nat, tree: Id, rate: real, burst: nat)
    requires IsRun(run) && i <= j < |run.states| && PaysFor(run.states[i], tree, rate, burst)
    ensures PaysFor(run.states[j], tree, rate, burst)
    decreases j
  {
    if i < j {
      PlanHolds(run, i, j - 1, tree, rate, burst);
      assert Follows(run, j - 1);
      StepKeepsPlan(run.states[j - 1], run.steps[j - 1], tree, rate, burst);
    }
  }

  /** What the accepted puts cost was paid for by the last of them, at `t`. */
  lemma {:induction false} PutsArePaid(run: Run, i: nat, j: nat, seat: Seat, rate: real, burst: nat, start: real,
                                       end: real)
    returns (t: real)
    requires IsRun(run) && i <= j < |run.states| && PaysFor(run.states[i], seat.tree, rate, burst)
    requires Timed(run, i, j, seat, start, end) && Stays(run, i, j, seat) && start <= end
    requires rate >= 0.0 && burst >= 1 && Healthy(BucketOf(run.states[i], seat), start)
    ensures start <= t <= end
    ensures t == start || exists k :: i <= k < j && IsSeat(run.steps[k], seat) && t == run.steps[k].now
    ensures Paid(Tally(BucketOf(run.states[j], seat), AcceptedPuts(run, i, j, seat)), rate, burst,
                 BucketOf(run.states[i], seat), start, t)
    decreases j
  {
    if i == j {
      t := start;
      FlowSplits(rate, start, start, start);
    } else {
      t := PutsArePaid(run, i, j - 1, seat, rate, burst, start, end);
      var db, step := run.states[j - 1], run.steps[j - 1];
      PlanHolds(run, i, j - 1, seat.tree, rate, burst);
      assert Follows(run, j - 1);
      StepDebits(db, step, seat, rate, burst);
      if Accepted(db, step, seat) {
        var tally := Tally(BucketOf(db, seat), AcceptedPuts(run, i, j - 1, seat));
        PaidGrows(tally, rate, burst, BucketOf(run.states[i], seat), start, t, step.now);
        PaidDebit(tally, rate, burst, BucketOf(run.states[i], seat), start, step.now);
        t := step.now;
      }
    }
  }

  /** The bound on the puts accepted of one seat. A member who is removed and listed again finds a full bucket, so the
      bound is about a stretch without that. */
  lemma SeatBound(run: Run, i: nat, j: nat, seat: Seat, rate: real, burst: nat, start: real, end: real)
    requires IsRun(run) && i <= j < |run.states| && PaysFor(run.states[i], seat.tree, rate, burst)
    requires Timed(run, i, j, seat, start, end) && Stays(run, i, j, seat) && start <= end
    requires rate >= 0.0 && burst >= 1 && Healthy(BucketOf(run.states[i], seat), start)
    ensures AcceptedPuts(run, i, j, seat) as real <= burst as real + (end - start) * rate
  {
    var t := PutsArePaid(run, i, j, seat, rate, burst, start, end);
    var tally := Tally(BucketOf(run.states[j], seat), AcceptedPuts(run, i, j, seat));
    PaidGrows(tally, rate, burst, BucketOf(run.states[i], seat), start, t, end);
    BalanceIsBounded(BucketOf(run.states[i], seat), rate, burst, start);
    BalanceIsBounded(tally.bucket, rate, burst, end);
    assert AcceptedPuts(run, i, j, seat) as real <= burst as real + Flow(rate, start, end);
  }

  /** Removing and listing a member again refills its bucket. */
  lemma RemovalRefills(db: Db, seat: Seat, members: set<Id>)
    requires seat.tree in db.owners && seat.member !in members && seat.member != db.owners[seat.tree]
    ensures var removed := SetMembers(db, seat.tree, members);
            var back := SetMembers(removed, seat.tree, members + {seat.member});
            Seat(seat.tree, seat.member) in back.access && BucketOf(back, seat) == None
  {
  }
}
