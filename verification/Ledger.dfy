/**
  The byte ledger: what an account is said to use is exactly what its trees' rows were charged, across duplicates,
  refusals, marks and reaps. No credit is ever cut off at zero, and no plan cap is exceeded.
*/
module Ledger {
  import opened Wrappers
  import opened Bytes
  import opened ServerModel
  import opened Meter
  import opened ServerGc

  // ----- sums over rows -----

  ghost function Sum(m: map<Slot, nat>): nat {
    if m == map[] then 0
    else
      var k :| k in m;
      m[k] + Sum(m - {k})
  }

  /** The order in which the rows are added does not matter. */
  lemma {:induction false} SumWithout(m: map<Slot, nat>, k: Slot)
    requires k in m
    ensures Sum(m) == m[k] + Sum(m - {k})
  {
    var first :| first in m && Sum(m) == m[first] + Sum(m - {first});
    if first != k {
      SumWithout(m - {first}, k);
      SumWithout(m - {k}, first);
      assert m - {first} - {k} == m - {k} - {first};
    }
  }

  lemma SumWith(m: map<Slot, nat>, k: Slot, n: nat)
    requires k !in m
    ensures Sum(m[k := n]) == Sum(m) + n
  {
    SumWithout(m[k := n], k);
    assert m[k := n] - {k} == m;
  }

  /** What the rows of an account's trees were charged. */
  ghost function Charges(db: Db, account: Id): map<Slot, nat> {
    map k | k in db.index && k.tree in db.owners && db.owners[k.tree] == account :: db.index[k].charged
  }

  ghost predicate Balanced(db: Db, account: Id) {
    account in db.accounts ==>
      db.accounts[account].used == Sum(Charges(db, account)) && db.accounts[account].used <= db.accounts[account].cap
  }

  /** A log row was charged its size; owners have accounts; the books balance. */
  ghost predicate Booked(db: Db) {
    (forall k :: k in db.index && k.sub.Log? ==> db.index[k].charged == db.index[k].size) &&
    (forall k :: k in db.index ==> Known(db, k.tree)) &&
    forall a :: a in db.accounts ==> Balanced(db, a)
  }

  // ----- each step keeps it -----

  lemma SameCharges(before: Db, after: Db)
    requires Booked(before) && after.accounts == before.accounts && after.index.Keys == before.index.Keys
    requires before.owners.Keys <= after.owners.Keys && forall t :: t in before.owners ==> after.owners[t] == before.owners[t]
    requires forall k :: k in before.index ==>
               after.index[k].charged == before.index[k].charged && after.index[k].size == before.index[k].size
    ensures Booked(after)
  {
    forall a | a in after.accounts ensures Balanced(after, a) {
      assert Balanced(before, a);
      assert Charges(after, a) == Charges(before, a);
    }
  }

  /** A charge raises the owner's meter by what it is for, within the cap. */
  lemma ChargeMoves(a: Account, b: Option<Bucket>, size: nat, axis: Axis, now: real, privileged: bool)
    ensures var charge := ChargeWrite(a, b, size, axis, now, privileged);
      charge.Charged? ==>
        charge.account == a.(used := a.used + if axis.Accumulating? then size else 0) &&
        (axis.Accumulating? ==> a.used + size <= a.cap)
  {
  }

  /** The rows after a write: one new row with its charge, or the same charges. */
  lemma WriteCharges(db: Db, p: Put, now: real, charged: nat, account: Id)
    requires p.tree in db.owners
    ensures var after := Written(db, p, now, charged);
      Charges(after, account) ==
        if Slot(p.tree, p.sub) !in db.index && db.owners[p.tree] == account
        then Charges(db, account)[Slot(p.tree, p.sub) := charged] else Charges(db, account)
  {
  }

  /** Writes that charge make a new row: the handlers check for an old one first. */
  lemma WriteBalances(db: Db, mid: Db, p: Put, now: real, charged: nat, account: Id)
    requires Known(db, p.tree) && account in db.accounts && Balanced(db, account)
    requires mid.owners == db.owners && mid.index == db.index
    requires Slot(p.tree, p.sub) in db.index ==> charged == 0
    requires var owner := db.owners[p.tree];
      mid.accounts == db.accounts[owner := db.accounts[owner].(used := db.accounts[owner].used + charged)] &&
      (charged > 0 ==> db.accounts[owner].used + charged <= db.accounts[owner].cap)
    ensures Balanced(Written(mid, p, now, charged), account)
  {
    var slot := Slot(p.tree, p.sub);
    WriteCharges(mid, p, now, charged, account);
    assert Charges(mid, account) == Charges(db, account);
    if slot !in db.index && db.owners[p.tree] == account { SumWith(Charges(db, account), slot, charged); }
  }

  lemma WriteKeepsLedger(db: Db, p: Put, axis: Axis, now: real)
    requires Booked(db) && Known(db, p.tree)
    requires axis.Accumulating? ==> Slot(p.tree, p.sub) !in db.index
    requires p.sub.Log? ==> axis.Accumulating?
    ensures Booked(ChargeThenWrite(db, p, axis, now).db)
  {
    var charge := ChargeFor(db, p, axis, now);
    if charge.Charged? {
      ChargeMoves(db.accounts[db.owners[p.tree]], BucketOf(db, Seat(p.tree, p.member)), |p.body|, axis, now, p.privileged);
      var mid, charged := Debited(db, p, charge), if axis.Accumulating? then |p.body| else 0;
      LedgerAfterWrite(db, mid, p, now, charged);
    }
  }

  lemma LedgerAfterWrite(db: Db, mid: Db, p: Put, now: real, charged: nat)
    requires Booked(db) && Known(db, p.tree)
    requires mid == db.(accounts := mid.accounts, buckets := mid.buckets)
    requires Slot(p.tree, p.sub) in db.index ==> charged == 0 && !p.sub.Log?
    requires p.sub.Log? ==> charged == |p.body|
    requires var owner := db.owners[p.tree];
      mid.accounts == db.accounts[owner := db.accounts[owner].(used := db.accounts[owner].used + charged)] &&
      (charged > 0 ==> db.accounts[owner].used + charged <= db.accounts[owner].cap)
    ensures Booked(Written(mid, p, now, charged))
  {
    var after := Written(mid, p, now, charged);
    forall a | a in after.accounts ensures Balanced(after, a) {
      WriteBalances(db, mid, p, now, charged, a);
    }
  }

  lemma SnapshotKeepsLedger(db: Db, p: Put, now: real)
    requires Booked(db) && Known(db, p.tree) && p.sub.Snapshot?
    ensures Booked(PutSnapshot(db, p, now).db)
  {
    var written := ChargeThenWrite(db, p, PointerOnly, now).db;
    assert Booked(written) by { WriteKeepsLedger(db, p, PointerOnly, now); }
    if PutSnapshot(db, p, now).reply.Accepted? {
      var covered := Clamped(p.covered.value);
      assert PutSnapshot(db, p, now).db == Published(written, p.tree, covered, Tag(p.body));
      SameCharges(written, Published(written, p.tree, covered, Tag(p.body)));
    }
  }

  lemma PointerKeepsLedger(db: Db, p: Put, now: real)
    requires Booked(db) && Known(db, p.tree) && (p.sub.Head? || p.sub.Other?)
    ensures Booked(PutPointer(db, p, now).db)
  {
    WriteKeepsLedger(db, p, PointerOnly, now);
    if Slot(p.tree, p.sub) !in db.index { WriteKeepsLedger(db, p, Accumulating, now); }
  }

  lemma LogKeepsLedger(db: Db, p: Put, now: real)
    requires Booked(db) && Known(db, p.tree) && p.sub.Log?
    ensures Booked(PutLog(db, p, now).db)
  {
    if Slot(p.tree, p.sub) !in db.index { WriteKeepsLedger(db, p, Accumulating, now); }
  }

  lemma PutKeepsLedger(db: Db, p: Put, now: real)
    requires Booked(db)
    ensures Booked(PutBlob(db, p, now).db)
  {
    if |p.body| <= CapFor(p.sub) && Known(db, p.tree) {
      match p.sub
      case Log(_, _) => LogKeepsLedger(db, p, now);
      case Snapshot => SnapshotKeepsLedger(db, p, now);
      case _ => PointerKeepsLedger(db, p, now);
    }
  }

  lemma ReapCharges(db: Db, slot: Slot, purged: bool, account: Id)
    requires slot in db.index && db.index[slot].pending.Some? && slot.tree in db.owners
    ensures Charges(Reap(db, slot, purged), account) ==
      if account == db.owners[slot.tree] then Charges(db, account) - {slot} else Charges(db, account)
  {
  }

  /** A reap takes out of the meter exactly what the row put in, so the clamp at zero never cuts anything off. */
  lemma ReapCredits(db: Db, slot: Slot, purged: bool)
    requires Booked(db) && slot in db.index && db.index[slot].pending.Some? && slot.sub.Log?
    ensures slot.tree in db.owners && db.owners[slot.tree] in db.accounts
    ensures var owner := db.owners[slot.tree];
      db.accounts[owner].used >= db.index[slot].size &&
      Reap(db, slot, purged).accounts ==
        db.accounts[owner := db.accounts[owner].(used := db.accounts[owner].used - db.index[slot].size)]
  {
    var owner := db.owners[slot.tree];
    assert Known(db, slot.tree) && Balanced(db, owner);
    SumWithout(Charges(db, owner), slot);
  }

  lemma ReapBalances(db: Db, slot: Slot, purged: bool, account: Id)
    requires Booked(db) && slot in db.index && db.index[slot].pending.Some? && slot.sub.Log?
    requires account in db.accounts
    ensures Balanced(Reap(db, slot, purged), account)
  {
    assert Balanced(db, account);
    ReapCredits(db, slot, purged);
    ReapCharges(db, slot, purged, account);
    if account == db.owners[slot.tree] { SumWithout(Charges(db, account), slot); }
  }

  lemma ReapKeepsLedger(db: Db, slot: Slot, purged: bool)
    requires Booked(db) && slot in db.index && db.index[slot].pending.Some? && slot.sub.Log?
    ensures Booked(Reap(db, slot, purged))
  {
    var after := Reap(db, slot, purged);
    ReapCredits(db, slot, purged);
    forall a | a in after.accounts ensures Balanced(after, a) { ReapBalances(db, slot, purged, a); }
    forall k | k in after.index ensures Known(after, k.tree) { assert Known(db, k.tree); }
  }

  lemma StepKeepsLedger(db: Db, step: Step)
    requires Sound(db) && Booked(db)
    ensures Booked(Next(db, step))
  {
    if step.PutStep? {
      PutKeepsLedger(db, step.p, step.now);
    } else if step.MarkStep? {
      MarkFrame(db, step.tree, step.since, step.now);
      SameCharges(db, Next(db, step));
    } else if step.ReapStep? {
      if step.slot in db.index && db.index[step.slot].pending.Some? { ReapKeepsLedger(db, step.slot, step.purged); }
    } else {
      OthersFrame(db, step);
      SameCharges(db, Next(db, step));
    }
  }
}
