/**
  Whole runs of the server: the ratchets never go back, a log object once accepted is served unchanged until it lies
  below the floor and is never written again, and the books balance in every state.
*/
module ServerRuns {
  import opened Wrappers
  import opened Bytes
  import opened ServerModel
  import opened Meter
  import opened ServerGc
  import opened Ledger
  import Decimal
  import Text
  import Utf8

  datatype Run = Run(states: seq<Db>, steps: seq<Step>)

  /** No tree yet; any accounts, with nothing used. */
  ghost predicate Start(db: Db) {
    db.owners == map[] && db.index == map[] && db.objects == map[] && db.floors == map[] && db.covered == map[] &&
    forall a :: a in db.accounts ==> db.accounts[a].used == 0
  }

  /** Step `i` leads from state `i` to the next one. */
  ghost predicate Follows(run: Run, i: nat)
    requires |run.states| == |run.steps| + 1 && i < |run.steps|
  {
    run.states[i + 1] == Next(run.states[i], run.steps[i])
  }

  ghost predicate IsRun(run: Run) {
    |run.states| == |run.steps| + 1 && Start(run.states[0]) &&
    forall i :: 0 <= i < |run.steps| ==> Follows(run, i)
  }

  // ----- every reachable state -----

  lemma StartIsSound(db: Db)
    requires Start(db)
    ensures Sound(db) && Booked(db)
  {
    forall a | a in db.accounts ensures Balanced(db, a) {
      assert Charges(db, a) == map[];
    }
  }

  /** The invariants of `ServerGc` and `Ledger` together. */
  ghost predicate InOrder(db: Db) {
    Sound(db) && Booked(db)
  }

  lemma NextIsInOrder(run: Run, i: nat)
    requires IsRun(run) && i < |run.steps| && InOrder(run.states[i])
    ensures InOrder(run.states[i + 1])
  {
    assert Follows(run, i);
    StepKeeps(run.states[i], run.steps[i]);
    StepKeepsLedger(run.states[i], run.steps[i]);
  }

  lemma {:induction false} EveryStateInOrder(run: Run, i: nat)
    requires IsRun(run) && i < |run.states|
    ensures InOrder(run.states[i])
  {
    if i == 0 {
      StartIsSound(run.states[0]);
    } else {
      EveryStateInOrder(run, i - 1);
      NextIsInOrder(run, i - 1);
    }
  }

  /**
    In every reachable state each floor is within the published coverage, the coverage is within what the tree
    retains and bound to the live snapshot, only log rows below their floor are marked; and each account uses
    exactly what its trees' rows were charged, within its cap.
  */
  lemma ReachableIsSound(run: Run, i: nat)
    requires IsRun(run) && i < |run.states|
    ensures Sound(run.states[i]) && Booked(run.states[i])
  {
    EveryStateInOrder(run, i);
  }

  lemma NextRatchets(run: Run, i: nat, lane: Lane)
    requires IsRun(run) && i < |run.steps|
    ensures FloorOf(run.states[i], lane) <= FloorOf(run.states[i + 1], lane)
    ensures CoveredOf(run.states[i], lane) <= CoveredOf(run.states[i + 1], lane)
  {
    ReachableIsSound(run, i);
    assert Follows(run, i);
    StepRatchets(run.states[i], run.steps[i], lane);
  }

  /** Floors and published counters never decrease. */
  lemma {:induction false} Ratchets(run: Run, i: nat, j: nat, lane: Lane)
    requires IsRun(run) && i <= j < |run.states|
    ensures FloorOf(run.states[i], lane) <= FloorOf(run.states[j], lane)
    ensures CoveredOf(run.states[i], lane) <= CoveredOf(run.states[j], lane)
    decreases j
  {
    if i < j {
      Ratchets(run, i, j - 1, lane);
      NextRatchets(run, j - 1, lane);
    }
  }

  // ----- what becomes of one log object -----

  /** Step `i` was a put of the object that the server accepted. */
  ghost predicate Wrote(run: Run, i: nat, slot: Slot, body: seq<byte>)
    requires IsRun(run) && i < |run.steps|
  {
    Accepts(run.states[i], run.steps[i], slot, body)
  }

  ghost predicate Accepts(db: Db, step: Step, slot: Slot, body: seq<byte>) {
    step.PutStep? && Slot(step.p.tree, step.p.sub) == slot && step.p.body == body &&
    PutBlob(db, step.p, step.now).reply.Accepted?
  }

  lemma WriteRows(db: Db, p: Put, axis: Axis, now: real)
    requires Known(db, p.tree)
    ensures var out := ChargeThenWrite(db, p, axis, now);
      var slot := Slot(p.tree, p.sub);
      if out.reply.Accepted? then
        slot in out.db.index && out.db.objects == db.objects[slot := p.body] &&
        out.db.index == db.index[slot := out.db.index[slot]]
      else out.db == db
  {
  }

  /** A put changes the rows and objects of its own slot only, and only if it is accepted. */
  lemma PutRows(db: Db, p: Put, now: real)
    ensures var out := PutBlob(db, p, now);
      var slot := Slot(p.tree, p.sub);
      if out.reply.Accepted? then
        slot in out.db.index && out.db.objects == db.objects[slot := p.body] &&
        out.db.index == db.index[slot := out.db.index[slot]]
      else out.db == db
  {
    if |p.body| <= CapFor(p.sub) && Known(db, p.tree) {
      if p.sub.Snapshot? {
        WriteRows(db, p, PointerOnly, now);
      } else if p.ifAbsent {
        WriteRows(db, p, Accumulating, now);
      } else if !p.sub.Log? {
        WriteRows(db, p, PointerOnly, now);
      }
    }
  }

  /** A log put goes through only above the floor and into an empty slot. */
  lemma LogPutsAreFirst(db: Db, p: Put, now: real)
    requires p.sub.Log? && PutBlob(db, p, now).reply.Accepted?
    ensures p.ifAbsent && Slot(p.tree, p.sub) !in db.index && !Doomed(db, Slot(p.tree, p.sub))
  {
  }

  /** One step in the life of a log object. */
  ghost predicate Lives(db: Db, step: Step, after: Db, slot: Slot) {
    && (slot in db.index ==> slot in db.objects && (Doomed(after, slot) || slot in after.index))
    && (slot in db.index && slot in after.index ==> slot in after.objects && after.objects[slot] == db.objects[slot])
    && (slot !in db.index && slot in after.index ==>
          slot in after.objects && Accepts(db, step, slot, after.objects[slot]))
    && forall body :: Accepts(db, step, slot, body) ==>
         slot !in db.index && !Doomed(db, slot) && slot in after.index
  }

  lemma LogStep(db: Db, step: Step, slot: Slot)
    requires Sound(db) && slot.sub.Log?
    ensures Lives(db, step, Next(db, step), slot)
  {
    var after := Next(db, step);
    if step.PutStep? {
      PutRows(db, step.p, step.now);
      if Slot(step.p.tree, step.p.sub) == slot && PutBlob(db, step.p, step.now).reply.Accepted? {
        LogPutsAreFirst(db, step.p, step.now);
      }
    } else if step.MarkStep? {
      MarkFrame(db, step.tree, step.since, step.now);
    } else if !step.ReapStep? {
      OthersFrame(db, step);
    }
  }

  lemma NextLives(run: Run, i: nat, slot: Slot)
    requires IsRun(run) && i < |run.steps| && slot.sub.Log?
    ensures Lives(run.states[i], run.steps[i], run.states[i + 1], slot)
  {
    ReachableIsSound(run, i);
    assert Follows(run, i);
    LogStep(run.states[i], run.steps[i], slot);
  }

  /** The slot holds an object only if an earlier put of exactly these bytes was accepted. */
  ghost predicate Sourced(run: Run, j: nat, slot: Slot)
    requires IsRun(run) && j < |run.states|
  {
    slot in run.states[j].index ==>
      slot in run.states[j].objects && exists i :: 0 <= i < j && Wrote(run, i, slot, run.states[j].objects[slot])
  }

  ghost predicate Written(run: Run, j: nat, slot: Slot)
    requires IsRun(run) && j < |run.states|
  {
    exists i, body :: 0 <= i < j && Wrote(run, i, slot, body)
  }

  lemma {:induction false} EveryObjectIsSourced(run: Run, j: nat, slot: Slot)
    requires IsRun(run) && j < |run.states| && slot.sub.Log?
    ensures Sourced(run, j, slot)
  {
    if j > 0 && slot in run.states[j].index {
      NextLives(run, j - 1, slot);
      if slot in run.states[j - 1].index {
        EveryObjectIsSourced(run, j - 1, slot);
        var i :| 0 <= i < j - 1 && Wrote(run, i, slot, run.states[j - 1].objects[slot]);
        assert Wrote(run, i, slot, run.states[j].objects[slot]);
      } else {
        assert Wrote(run, j - 1, slot, run.states[j].objects[slot]);
      }
    }
  }

  /** Below the floor stays below it. */
  lemma DoomIsForever(run: Run, i: nat, j: nat, slot: Slot)
    requires IsRun(run) && i <= j < |run.states| && Doomed(run.states[i], slot)
    ensures Doomed(run.states[j], slot)
  {
    Ratchets(run, i, j, Lane(slot.tree, slot.sub.replica));
  }

  /** An accepted log object is indexed, or below its floor, in every later state. */
  lemma {:induction false} AcceptedIsKept(run: Run, i: nat, j: nat, slot: Slot, body: seq<byte>)
    requires IsRun(run) && i < j < |run.states| && slot.sub.Log? && Wrote(run, i, slot, body)
    ensures slot in run.states[j].index || Doomed(run.states[j], slot)
    decreases j
  {
    if i < j - 1 {
      AcceptedIsKept(run, i, j - 1, slot, body);
      KeptOneStep(run, j - 1, slot);
    } else {
      NextLives(run, i, slot);
    }
  }

  lemma KeptOneStep(run: Run, j: nat, slot: Slot)
    requires IsRun(run) && j < |run.steps| && slot.sub.Log?
    requires slot in run.states[j].index || Doomed(run.states[j], slot)
    ensures slot in run.states[j + 1].index || Doomed(run.states[j + 1], slot)
  {
    NextLives(run, j, slot);
    if Doomed(run.states[j], slot) { DoomIsForever(run, j, j + 1, slot); }
  }

  /**
    A read answers truthfully: not-found means never written and not below the floor; served bytes are those of
    an accepted put; gone means below the floor.
  */
  lemma ReadsAreTruthful(run: Run, j: nat, slot: Slot)
    requires IsRun(run) && j < |run.states| && slot.sub.Log?
    ensures var fetch := GetBlob(run.states[j], slot);
      (fetch.Missing? <==> !Written(run, j, slot) && !Doomed(run.states[j], slot)) &&
      (fetch.Served? ==> exists i :: 0 <= i < j && Wrote(run, i, slot, fetch.body)) &&
      (fetch.Gone? ==> Doomed(run.states[j], slot))
  {
    var db := run.states[j];
    ReachableIsSound(run, j);
    EveryObjectIsSourced(run, j, slot);
    if Written(run, j, slot) {
      var i, body :| 0 <= i < j && Wrote(run, i, slot, body);
      AcceptedIsKept(run, i, j, slot, body);
    }
    if Doomed(db, slot) { FlooredTreeExists(db, Lane(slot.tree, slot.sub.replica)); }
  }

  lemma FlooredTreeExists(db: Db, lane: Lane)
    requires Sound(db) && FloorOf(db, lane) > 0
    ensures lane.tree in db.owners
  {
    assert Trusted(db, lane);
  }

  /** No resurrection: a log object is accepted at most once in a run, and never once it is below the floor. */
  lemma NoResurrection(run: Run, i: nat, j: nat, slot: Slot, body: seq<byte>)
    requires IsRun(run) && i < j < |run.steps| && slot.sub.Log?
    requires Doomed(run.states[i], slot) || exists b :: Wrote(run, i, slot, b)
    ensures !Wrote(run, j, slot, body)
  {
    NextLives(run, j, slot);
    if Doomed(run.states[i], slot) {
      DoomIsForever(run, i, j, slot);
    } else {
      var b :| Wrote(run, i, slot, b);
      AcceptedIsKept(run, i, j, slot, b);
    }
  }

  // ----- marks -----

  /** A row that stays keeps its creation time, its charge and its mark, but for the rows a mark step takes: no upload,
      not even one over the row, clears a mark or restarts its grace. */
  lemma MarksStay(db: Db, step: Step, k: Slot)
    requires k in db.index && k in Next(db, step).index
    ensures var before, after := db.index[k], Next(db, step).index[k];
      after.created == before.created && after.charged == before.charged &&
      after.pending == if step.MarkStep? && step.tree in db.owners && Marks(db, step.tree, step.since, step.now, k)
                       then Some(step.now) else before.pending
  {
    if step.PutStep? {
      PutKeepsRow(db, step.p, step.now, k);
    } else if step.ReportStep? || step.CreateStep? || step.MembersStep? {
      OthersFrame(db, step);
    }
  }

  lemma PutKeepsRow(db: Db, p: Put, now: real, k: Slot)
    requires k in db.index
    ensures var after := PutBlob(db, p, now).db.index;
      k in after && after[k] == db.index[k].(tag := after[k].tag, size := after[k].size, author := after[k].author)
  {
    PutRows(db, p, now);
    if PutBlob(db, p, now).reply.Accepted? && k == Slot(p.tree, p.sub) {
      OverwriteKeepsRow(db, p, now);
    }
  }

  lemma WriteKeepsRow(db: Db, p: Put, axis: Axis, now: real)
    requires Known(db, p.tree) && Slot(p.tree, p.sub) in db.index && ChargeThenWrite(db, p, axis, now).reply.Accepted?
    ensures var k, after := Slot(p.tree, p.sub), ChargeThenWrite(db, p, axis, now).db.index;
      k in after && after[k] == db.index[k].(tag := after[k].tag, size := after[k].size, author := after[k].author)
  {
  }

  /** Only pointers are ever overwritten. */
  lemma OverwriteKeepsRow(db: Db, p: Put, now: real)
    requires Slot(p.tree, p.sub) in db.index && PutBlob(db, p, now).reply.Accepted?
    ensures var k, after := Slot(p.tree, p.sub), PutBlob(db, p, now).db.index;
      k in after && after[k] == db.index[k].(tag := after[k].tag, size := after[k].size, author := after[k].author)
  {
    assert !p.sub.Log?;
    WriteKeepsRow(db, p, PointerOnly, now);
  }

  // ----- head pointers -----

  /** The write that can lower a head: a conditional one of a negative count, to a free slot, that the meter lets by. */
  predicate NegativeFirst(db: Db, step: Step, lane: Lane) {
    step.PutStep? && step.p.tree == lane.tree && step.p.sub == Head(lane.replica) && step.p.ifAbsent &&
    ParseCount(step.p.body).Some? && ParseCount(step.p.body).value < 0 && |step.p.body| <= HEADS_MAX_BYTES &&
    Known(db, lane.tree) && Slot(lane.tree, Head(lane.replica)) !in db.index &&
    ChargeFor(db, step.p, Accumulating, step.now).Charged?
  }

  /** A step lowers a published head exactly when it is such a write; every overwrite is monotone. */
  lemma HeadFalls(db: Db, step: Step, lane: Lane)
    requires Sound(db)
    ensures HeadCount(Next(db, step), lane) < HeadCount(db, lane) <==> NegativeFirst(db, step, lane)
  {
    var slot := Slot(lane.tree, Head(lane.replica));
    if step.PutStep? {
      PutRows(db, step.p, step.now);
      if Slot(step.p.tree, step.p.sub) == slot && PutBlob(db, step.p, step.now).reply.Accepted? {
        HeadPut(db, step.p, step.now, lane);
      }
    } else if step.MarkStep? {
      MarkFrame(db, step.tree, step.since, step.now);
    } else if step.ReapStep? {
      if step.slot in db.index && db.index[step.slot].pending.Some? { assert Doomed(db, step.slot); }
    } else {
      OthersFrame(db, step);
    }
  }

  /** An accepted head put: an overwrite is no lower, a first conditional write starts from 0. */
  lemma HeadPut(db: Db, p: Put, now: real, lane: Lane)
    requires Sound(db) && p.tree == lane.tree && p.sub == Head(lane.replica) && PutBlob(db, p, now).reply.Accepted?
    ensures !p.ifAbsent ==> ParseCount(p.body).Some? && ParseCount(p.body).value >= HeadCount(db, lane)
    ensures p.ifAbsent ==> HeadCount(db, lane) == 0
  {
  }

  /** One account with room, and its tree. */
  const ONE_TREE: Db :=
    Db(map[0 := Account(0, 100, 1.0, 10, 0.0)], map[0 := 0], {}, map[], map[], map[], map[], map[], map[])

  /** The first head put of a tree can publish "-5". */
  lemma NegativeHeadIsAccepted()
    ensures var step := PutStep(Put(0, 0, Head("a"), true, [45, 53], None, false), 0.0);
            Sound(ONE_TREE) && HeadCount(ONE_TREE, Lane(0, "a")) == 0 &&
            HeadCount(Next(ONE_TREE, step), Lane(0, "a")) == -5
  {
    var body: seq<byte> := [45, 53];
    var p := Put(0, 0, Head("a"), true, body, None, false);
    MinusFive();
    assert ChargeFor(ONE_TREE, p, Accumulating, 0.0).Charged?;
    assert Next(ONE_TREE, PutStep(p, 0.0)).objects == map[Slot(0, Head("a")) := body];
  }

  lemma MinusFive()
    ensures ParseCount([45, 53]) == Some(-5)
  {
    var body: seq<byte> := [45, 53];
    assert Utf8.Encode("-5") == body by { assert "-5"[1..] == "5" && "5"[1..] == ""; }
    Utf8.DecodeOfEncode("-5");
    Text.TrimOfTight("-5");
    assert "-5"[1..] == "5";
    assert Decimal.Value("5") == 10 * Decimal.Value("5"[..0]) + 5;
  }

  lemma HeadStays(run: Run, i: nat, lane: Lane)
    requires IsRun(run) && i < |run.steps| && !NegativeFirst(run.states[i], run.steps[i], lane)
    ensures HeadCount(run.states[i], lane) <= HeadCount(run.states[i + 1], lane)
  {
    ReachableIsSound(run, i);
    assert Follows(run, i);
    HeadFalls(run.states[i], run.steps[i], lane);
  }

  lemma {:induction false} NeverFalls(counts: seq<int>, i: nat, j: nat)
    requires i <= j < |counts| && forall k :: i <= k < j ==> counts[k] <= counts[k + 1]
    ensures counts[i] <= counts[j]
  {
    if i < j {
      NeverFalls(counts, i, j - 1);
      assert counts[j - 1] <= counts[j - 1 + 1];
    }
  }

  ghost predicate Holds(run: Run, k: nat, lane: Lane)
    requires IsRun(run) && k < |run.steps|
  {
    HeadCount(run.states[k], lane) <= HeadCount(run.states[k + 1], lane)
  }

  lemma HeadRises(run: Run, i: nat, j: nat, lane: Lane)
    requires IsRun(run) && i <= j < |run.states| && forall k :: i <= k < j ==> Holds(run, k, lane)
    ensures HeadCount(run.states[i], lane) <= HeadCount(run.states[j], lane)
  {
    var counts := seq(|run.states|, k requires 0 <= k < |run.states| => HeadCount(run.states[k], lane));
    forall k | i <= k < j
      ensures counts[k] <= counts[k + 1]
    {
      assert Holds(run, k, lane);
    }
    NeverFalls(counts, i, j);
  }

  lemma HeadsNeverFall(run: Run, i: nat, j: nat, lane: Lane)
    requires IsRun(run) && i <= j < |run.states|
    requires forall k :: i <= k < j ==> !NegativeFirst(run.states[k], run.steps[k], lane)
    ensures HeadCount(run.states[i], lane) <= HeadCount(run.states[j], lane)
  {
    forall k | i <= k < j
      ensures Holds(run, k, lane)
    {
      HeadStays(run, k, lane);
    }
    HeadRises(run, i, j, lane);
  }
}
