/**
  Appending, and adopting a snapshot. Adoption moves the frontier only over absent dots the snapshot claims. The
  purge of held and stalled dots as coded goes further than the claim: it keeps the bucket invariant exactly
  when no unsettled blocker of a covered replica lies at or above the claim. Bounded by the claim it always does,
  counting the claimed dots as settled: under either rule a present dot below the claim is no longer pinned.
*/
module Adoption {
  import opened Wrappers
  import opened Counters
  import opened SyncModel
  import opened Buckets
  import Decimal

  // ----- appending -----

  /** Everything this client wrote itself is settled. */
  ghost predicate OwnSettled(c: Client) {
    forall k :: 0 <= k < c.next ==> Settled(c, Dot(c.replica, k))
  }

  lemma AppendKeeps(c: Client, s: Blobs, h: Host, kind: Kind, body: Plaintext)
    requires Booked(c) && OwnSettled(c)
    ensures var w := Append(c, s, h, kind, body);
            Booked(w.c) && OwnSettled(w.c) && (Tidy(c) ==> Invariant(w.c))
  {
    var w := Append(c, s, h, kind, body);
    forall d | Below(w.c.pull, d)
      ensures Settled(w.c, d) || d in Blockers(w.c)
    {
      if !Below(c.pull, d) {
        assert d == Dot(c.replica, d.counter) && d.counter < w.c.next;
      }
    }
  }

  /** An append that reports success has stored its entry exactly when the slot was free or already held it. */
  lemma AppendStores(c: Client, s: Blobs, h: Host, kind: Kind, body: Plaintext)
    requires Append(c, s, h, kind, body).ok
    ensures var w := Append(c, s, h, kind, body);
            var dot, env := Dot(c.replica, c.next), Sealed(kind, c.next, c.prev, body);
            (dot in w.s.log && w.s.log[dot] == env <==> dot !in s.log || s.log[dot] == env) &&
            w.c.next == c.next + 1 && w.c.prev == Some(env) && c.next < At(w.c.pull, c.replica) &&
            (c.next < Decimal.U64_MAX ==> HeadCount(w.s, c.replica) == Some(c.next + 1))
  {
    Decimal.ParseOfPrint(c.next + 1);
  }

  /** The entry appended next chains onto the last stored one, unless an attempt failed in between:
      a failed attempt that did not advance the counter has lost the chain hash. */
  lemma FailedAppendForgetsTheChain(c: Client, s: Blobs, h: Host, kind: Kind, body: Plaintext)
    ensures var w := Append(c, s, h, kind, body);
            (w.c.next == c.next <==> !h.seals || LogObject(Dot(c.replica, c.next)) in s.down) &&
            (w.c.next == c.next ==> !w.ok && w.s == s && w.c.prev == None) &&
            (w.c.next != c.next ==> w.c.prev == Some(Sealed(kind, c.next, c.prev, body)))
  {
  }

  /** After an attempt, the next append that reaches its free slot links to the entry of that attempt exactly when the
      attempt moved the counter: an attempt that did not leaves an entry with no link, whatever came before it. */
  lemma NextEntryLinks(c: Client, s: Blobs, h: Host, kind: Kind, body: Plaintext,
                       s': Blobs, h': Host, kind': Kind, body': Plaintext)
    requires var first := Append(c, s, h, kind, body).c;
             Append(first, s', h', kind', body').c.next == first.next + 1 && Dot(first.replica, first.next) !in s'.log
    ensures var first := Append(c, s, h, kind, body).c;
            var log := Append(first, s', h', kind', body').s.log;
            var dot := Dot(c.replica, first.next);
            dot in log && log[dot].Sealed? &&
            log[dot].prev == if first.next == c.next then None else Some(Sealed(kind, c.next, c.prev, body))
  {
  }

  // ----- adopting -----

  /** No unsettled blocker of a covered replica lies at or above the claim: what a caller can check before adopting. */
  predicate PurgeSafe(c: Client, covered: Frontier) {
    forall d :: d in Blockers(c) && Below(c.pull, d) && d.replica in covered ==> Below(covered, d) || Settled(c, d)
  }

  /** `c'` comes from `c` by adopting claims over `s`. */
  ghost predicate Adopts(c: Client, c': Client, s: Blobs, covered: Frontier) {
    && c'.replica == c.replica && c'.next == c.next && c'.prev == c.prev && c'.engine == c.engine
    && c'.folded == c.folded && c'.covers == c.covers && c'.suppressed == c.suppressed && c'.adopted == c.adopted
    && c'.rejectedEtag == c.rejectedEtag
    && Blockers(c') <= Blockers(c) && c'.held <= c.held && c'.stalled.Keys <= c.stalled.Keys && c'.dropped <= c.dropped
    && (forall d :: Below(c.pull, d) ==> Below(c'.pull, d))
    && (forall d :: Below(c'.pull, d) && !Below(c.pull, d) ==>
          ReadLog(s, d) == Absent && Below(covered, d) && d.counter < HeadCount(s, d.replica).GetOr(0))
  }

  lemma AdoptReplicaAdopts(run: Run, s: Blobs, covered: Frontier, r: Replica, rule: PurgeRule)
    requires r in covered
    ensures var after := AdoptReplica(run, s, r, covered[r], rule);
            Adopts(run.c, after.c, s, covered) &&
            (forall d :: d in Blockers(run.c) && d !in Blockers(after.c) ==>
               d.replica == r && (rule == Bounded ==> Below(covered, d)))
  {
    if HeadPointer(r) !in s.down {
      var c := run.c;
      var cap := Min(covered[r], HeadCount(s, r).GetOr(0));
      var reached := SkipAbsent(s, r, At(c.pull, r), cap);
      var c' := AdoptReplica(run, s, r, covered[r], rule).c;
      forall d | Below(c'.pull, d) && !Below(c.pull, d)
        ensures ReadLog(s, d) == Absent && Below(covered, d) && d.counter < HeadCount(s, d.replica).GetOr(0)
      {
        assert d == Dot(r, d.counter) && At(c.pull, r) <= d.counter < reached;
      }
    }
  }

  lemma AdoptsTransitive(a: Client, b: Client, c: Client, s: Blobs, covered: Frontier)
    requires Adopts(a, b, s, covered) && Adopts(b, c, s, covered)
    ensures Adopts(a, c, s, covered)
  {
  }

  lemma {:induction false} AdoptAllAdopts(run: Run, s: Blobs, covered: Frontier, order: seq<Replica>, rule: PurgeRule)
    requires forall i :: 0 <= i < |order| ==> order[i] in covered
    ensures var after := AdoptAll(run, s, covered, order, rule);
            Adopts(run.c, after.c, s, covered) &&
            (forall d :: d in Blockers(run.c) && d !in Blockers(after.c) ==>
               d.replica in covered && (rule == Bounded ==> Below(covered, d)))
    decreases order
  {
    if order != [] && run.ok {
      AdoptReplicaAdopts(run, s, covered, order[0], rule);
      var mid := AdoptReplica(run, s, order[0], covered[order[0]], rule);
      AdoptAllAdopts(mid, s, covered, order[1..], rule);
      AdoptsTransitive(run.c, mid.c, AdoptAll(run, s, covered, order, rule).c, s, covered);
    }
  }

  ghost predicate AdoptOrder(c: Client, s: Blobs, h: Host, trusts: Envelope -> bool, order: seq<Replica>) {
    OfferOf(c, s, h, trusts).Offered? ==>
      (forall i :: 0 <= i < |order| ==> order[i] in OfferOf(c, s, h, trusts).covered) &&
      (forall r :: r in OfferOf(c, s, h, trusts).covered ==> r in order)
  }

  /** Adoption keeps the bucket invariant when its purge is bounded by the claim, or when the coded purge is safe;
      a failure half way does not break it. It moves the frontier only over dots that are absent, claimed, and
      below the head the store shows, so a dot still present is left for the tail pull. */
  lemma AdoptKeeps(c: Client, s: Blobs, h: Host, trusts: Envelope -> bool, order: seq<Replica>, rule: PurgeRule)
    requires Booked(c) && AdoptOrder(c, s, h, trusts, order)
    requires var offer := OfferOf(c, s, h, trusts); offer.Offered? && rule == Coded ==> PurgeSafe(c, offer.covered)
    ensures var after := Adopt(c, s, h, trusts, order, rule).c;
            var offer := OfferOf(c, s, h, trusts);
            Booked(after) && (Tidy(c) ==> Invariant(after)) &&
            (offer.Offered? ==> Adopts(Restore(c, offer.covered, offer.state), after, s, offer.covered)) &&
            (!offer.Offered? ==> after == c.(rejections := after.rejections, rejectedEtag := after.rejectedEtag))
  {
    match OfferOf(c, s, h, trusts)
    case Offered(covered, state) =>
      var restored := Restore(c, covered, state);
      AdoptAllAdopts(Run(restored, [], 0, true), s, covered, order, rule);
      var after := Adopt(c, s, h, trusts, order, rule).c;
      forall d | Below(after.pull, d)
        ensures Settled(after, d) || d in Blockers(after)
      {
        if Below(c.pull, d) && d in Blockers(c) && d !in Blockers(after) {
          assert Below(covered, d) || Settled(c, d);
        }
      }
    case _ =>
  }

  // ----- what an adoption takes out of the buckets -----

  /** The claim on `r` that adoption goes by: never beyond the head the store shows. */
  function Cap(s: Blobs, covered: Frontier, r: Replica): nat
    requires r in covered
  {
    Min(covered[r], HeadCount(s, r).GetOr(0))
  }

  /** Where adopting the claim leaves the frontier of `r`. */
  function Landing(c: Client, s: Blobs, covered: Frontier, r: Replica): nat
    requires r in covered
  {
    SkipAbsent(s, r, At(c.pull, r), Cap(s, covered, r))
  }

  /** The dots that adopting takes out of `held` and `stalled`. */
  predicate Unpinned(c: Client, s: Blobs, covered: Frontier, rule: PurgeRule, d: Dot) {
    d.replica in covered &&
    d.counter < PurgeLimit(rule, Landing(c, s, covered, d.replica), Cap(s, covered, d.replica))
  }

  predicate Undropped(s: Blobs, covered: Frontier, d: Dot) {
    d.replica in covered && d.counter < Cap(s, covered, d.replica)
  }

  /** `dots'` are the dots of `dots` but those of the replicas in `done` that lie below the limit. */
  ghost predicate Purged(dots: set<Dot>, dots': set<Dot>, limit: Dot -> bool, done: set<Replica>) {
    forall d :: d in dots' <==> d in dots && !(d.replica in done && limit(d))
  }

  /** From `c` to `c'` exactly the claims on the replicas of `done` have been adopted. */
  ghost predicate Adopted(c: Client, c': Client, s: Blobs, covered: Frontier, rule: PurgeRule, done: set<Replica>) {
    && (forall r :: At(c'.pull, r) == if r in done && r in covered then Landing(c, s, covered, r) else At(c.pull, r))
    && Purged(c.held, c'.held, d => Unpinned(c, s, covered, rule, d), done)
    && Purged(c.stalled.Keys, c'.stalled.Keys, d => Unpinned(c, s, covered, rule, d), done)
    && (forall d :: d in c'.stalled ==> d in c.stalled && c'.stalled[d] == c.stalled[d])
    && Purged(c.dropped, c'.dropped, d => Undropped(s, covered, d), done)
  }

  lemma PurgeOne(dots: set<Dot>, mid: set<Dot>, limit: Dot -> bool, done: set<Replica>, r: Replica, n: nat)
    requires Purged(dots, mid, limit, done) && forall d: Dot :: d.replica == r ==> (limit(d) <==> d.counter < n)
    ensures Purged(dots, Purge(mid, r, n), limit, done + {r})
  {
  }

  lemma LandsAgain(c: Client, c': Client, s: Blobs, covered: Frontier, r: Replica)
    requires r in covered && (At(c'.pull, r) == At(c.pull, r) || At(c'.pull, r) == Landing(c, s, covered, r))
    ensures Landing(c', s, covered, r) == Landing(c, s, covered, r)
  {
  }

  lemma AdoptReplicaAdopted(c: Client, run: Run, s: Blobs, covered: Frontier, r: Replica, rule: PurgeRule,
                            done: set<Replica>)
    requires r in covered && AdoptReplica(run, s, r, covered[r], rule).ok && Adopted(c, run.c, s, covered, rule, done)
    ensures Adopted(c, AdoptReplica(run, s, r, covered[r], rule).c, s, covered, rule, done + {r})
  {
    LandsAgain(c, run.c, s, covered, r);
    var limit := PurgeLimit(rule, Landing(c, s, covered, r), Cap(s, covered, r));
    PurgeOne(c.held, run.c.held, d => Unpinned(c, s, covered, rule, d), done, r, limit);
    PurgeOne(c.stalled.Keys, run.c.stalled.Keys, d => Unpinned(c, s, covered, rule, d), done, r, limit);
    PurgeOne(c.dropped, run.c.dropped, d => Undropped(s, covered, d), done, r, Cap(s, covered, r));
    var after := AdoptReplica(run, s, r, covered[r], rule).c;
    assert after.stalled.Keys == Purge(run.c.stalled.Keys, r, limit);
  }

  lemma FirstAndRest(order: seq<Replica>, done: set<Replica>)
    requires order != []
    ensures done + {order[0]} + (set q | q in order[1..]) == done + set q | q in order
  {
    assert order == [order[0]] + order[1..];
  }

  lemma {:induction false} AdoptAllAdopted(c: Client, run: Run, s: Blobs, covered: Frontier, order: seq<Replica>,
                                           rule: PurgeRule, done: set<Replica>)
    requires forall i :: 0 <= i < |order| ==> order[i] in covered
    requires AdoptAll(run, s, covered, order, rule).ok && Adopted(c, run.c, s, covered, rule, done)
    ensures Adopted(c, AdoptAll(run, s, covered, order, rule).c, s, covered, rule, done + set r | r in order)
    decreases order
  {
    if order == [] {
      assert done + (set r | r in order) == done;
    } else {
      var r, rest := order[0], order[1..];
      var mid := AdoptReplica(run, s, r, covered[r], rule);
      AdoptReplicaAdopted(c, run, s, covered, r, rule, done);
      AdoptAllAdopted(c, mid, s, covered, rest, rule, done + {r});
      FirstAndRest(order, done);
    }
  }

  /** Restoring the state moves no dot. */
  lemma RestoreMovesNothing(c: Client, after: Client, s: Blobs, covered: Frontier, state: set<Delta>, rule: PurgeRule,
                            done: set<Replica>)
    requires Adopted(Restore(c, covered, state), after, s, covered, rule, done)
    ensures Adopted(c, after, s, covered, rule, done)
  {
    var restored := Restore(c, covered, state);
    assert forall d :: Unpinned(restored, s, covered, rule, d) <==> Unpinned(c, s, covered, rule, d);
    assert Purged(c.held, after.held, d => Unpinned(c, s, covered, rule, d), done);
    assert Purged(c.stalled.Keys, after.stalled.Keys, d => Unpinned(c, s, covered, rule, d), done);
  }

  lemma NoneAdopted(c: Client, s: Blobs, covered: Frontier, rule: PurgeRule)
    ensures Adopted(c, c, s, covered, rule, {})
  {
  }

  /** What an adoption that runs to the end has done to the frontier, and to the held, stalled and dropped dots. */
  lemma AdoptionPurges(c: Client, s: Blobs, h: Host, trusts: Envelope -> bool, order: seq<Replica>, rule: PurgeRule)
    requires AdoptOrder(c, s, h, trusts, order)
    requires OfferOf(c, s, h, trusts).Offered? && Adopt(c, s, h, trusts, order, rule).ok
    ensures var covered := OfferOf(c, s, h, trusts).covered;
            Adopted(c, Adopt(c, s, h, trusts, order, rule).c, s, covered, rule, covered.Keys)
  {
    var covered, state := OfferOf(c, s, h, trusts).covered, OfferOf(c, s, h, trusts).state;
    var restored := Restore(c, covered, state);
    NoneAdopted(restored, s, covered, rule);
    AdoptAllAdopted(restored, Run(restored, [], 0, true), s, covered, order, rule, {});
    assert {} + (set r | r in order) == covered.Keys;
    RestoreMovesNothing(c, Adopt(c, s, h, trusts, order, rule).c, s, covered, state, rule, covered.Keys);
  }

  /** As coded, no dot below the frontier of a covered replica stays pinned, present or not. */
  lemma CodedPurgeTakesAll(c: Client, s: Blobs, h: Host, trusts: Envelope -> bool, order: seq<Replica>)
    requires AdoptOrder(c, s, h, trusts, order)
    requires OfferOf(c, s, h, trusts).Offered? && Adopt(c, s, h, trusts, order, Coded).ok
    ensures var after := Adopt(c, s, h, trusts, order, Coded).c;
            forall d :: Below(c.pull, d) ==>
              (d in Blockers(after) <==> d in Blockers(c) && d.replica !in OfferOf(c, s, h, trusts).covered)
  {
    AdoptionPurges(c, s, h, trusts, order, Coded);
  }

  /** Bounded by the claim, exactly the dots below both the claim and the head lose their pin. */
  lemma BoundedPurgeKeepsThePin(c: Client, s: Blobs, h: Host, trusts: Envelope -> bool, order: seq<Replica>)
    requires AdoptOrder(c, s, h, trusts, order)
    requires OfferOf(c, s, h, trusts).Offered? && Adopt(c, s, h, trusts, order, Bounded).ok
    ensures var after := Adopt(c, s, h, trusts, order, Bounded).c;
            forall d :: Below(c.pull, d) ==>
              (d in Blockers(after) <==>
               (d in Blockers(c) &&
                !(Below(OfferOf(c, s, h, trusts).covered, d) && d.counter < HeadCount(s, d.replica).GetOr(0))))
  {
    AdoptionPurges(c, s, h, trusts, order, Bounded);
  }

  /** The coded adoption keeps the bucket invariant if and only if the purge is safe. */
  lemma CodedAdoptionExactly(c: Client, s: Blobs, h: Host, trusts: Envelope -> bool, order: seq<Replica>)
    requires Booked(c) && AdoptOrder(c, s, h, trusts, order)
    requires OfferOf(c, s, h, trusts).Offered? && Adopt(c, s, h, trusts, order, Coded).ok
    ensures var after, safe := Adopt(c, s, h, trusts, order, Coded).c, PurgeSafe(c, OfferOf(c, s, h, trusts).covered);
            (Booked(after) <==> safe) && (Tidy(c) ==> (Invariant(after) <==> safe))
  {
    var covered, state := OfferOf(c, s, h, trusts).covered, OfferOf(c, s, h, trusts).state;
    var after := Adopt(c, s, h, trusts, order, Coded).c;
    if PurgeSafe(c, covered) {
      AdoptKeeps(c, s, h, trusts, order, Coded);
    } else {
      AdoptAllAdopts(Run(Restore(c, covered, state), [], 0, true), s, covered, order, Coded);
      CodedPurgeTakesAll(c, s, h, trusts, order);
      var d :| d in Blockers(c) && Below(c.pull, d) && d.replica in covered && !Below(covered, d) && !Settled(c, d);
      assert Below(after.pull, d) && !Settled(after, d) && d !in Blockers(after);
    }
  }

  // ----- the breaking state -----

  const ANYONE: Host := Host(env => true, delta => true, state => true, true)

  /** The entries of replica "a": one delta, and another chained onto it. */
  const FIRST: Envelope := Sealed(KDelta, 0, None, Change(Delta(0)))

  const SECOND: Envelope := Sealed(KDelta, 1, Some(FIRST), Change(Delta(1)))

  /** This client merged the first delta and holds the second. */
  const HOLDER: Client := Fresh("b").(pull := map["a" := 2], held := {Dot("a", 1)}, engine := {Delta(0)},
                                      folded := {Dot("a", 0)})

  /** The store shows both, and a snapshot, sealed between them, that honestly covers only the first. */
  const SHELF: Blobs := Blobs(map[Dot("a", 0) := FIRST, Dot("a", 1) := SECOND], map["a" := "2"],
                              Some(Sealed(KSnapshot, 1, Some(FIRST), Fold(map["a" := 1], {Delta(0)}))), {}, {})

  lemma HolderIsSound()
    ensures Invariant(HOLDER) && HeadCount(SHELF, "a") == Some(2)
  {
    assert Decimal.Value("2") == 10 * Decimal.Value("2"[..0]) + 2;
  }

  lemma HolderAdopts(rule: PurgeRule)
    ensures Adopt(HOLDER, SHELF, ANYONE, env => true, ["a"], rule) ==
            AdoptReplica(Run(Restore(HOLDER, map["a" := 1], {Delta(0)}), [], 0, true), SHELF, "a", 1, rule)
  {
    assert OfferOf(HOLDER, SHELF, ANYONE, env => true) == Offered(map["a" := 1], {Delta(0)});
    var run := Run(Restore(HOLDER, map["a" := 1], {Delta(0)}), [], 0, true);
    var next := AdoptReplica(run, SHELF, "a", 1, rule);
    assert AdoptAll(next, SHELF, map["a" := 1], ["a"][1..], rule) == next;
  }

  /** A client that kept the invariant adopts an honest snapshot and then publishes coverage of a present dot it
      only held: the purge as coded forgot it. */
  lemma CodedPurgeForgesCoverage()
    ensures Invariant(HOLDER) && Dot("a", 1) in SHELF.log
    ensures var after := Adopt(HOLDER, SHELF, ANYONE, env => true, ["a"], Coded).c;
            !Accounted(after) && Below(Subsumed(after), Dot("a", 1)) && Delta(1) !in after.engine
  {
    HolderIsSound();
    HolderAdopts(Coded);
    var after := Adopt(HOLDER, SHELF, ANYONE, env => true, ["a"], Coded).c;
    assert Dot("a", 1) !in after.held && after.stalled == map[] && after.pull == map["a" := 2];
    assert Below(after.pull, Dot("a", 1)) && !Settled(after, Dot("a", 1));
    SubsumedIsGreatest(after, "a", 2);
  }

  /** This client holds a present dot, and the snapshot claims it without containing its delta. */
  const DOUBTER: Client := Fresh("b").(pull := map["a" := 1], held := {Dot("a", 0)})

  const EMPTY_CLAIM: Blobs := Blobs(map[Dot("a", 0) := FIRST], map["a" := "1"],
                                    Some(Sealed(KSnapshot, 0, None, Fold(map["a" := 1], {}))), {}, {})

  lemma DoubterAdopts(rule: PurgeRule)
    ensures Adopt(DOUBTER, EMPTY_CLAIM, ANYONE, env => true, ["a"], rule) ==
            AdoptReplica(Run(Restore(DOUBTER, map["a" := 1], {}), [], 0, true), EMPTY_CLAIM, "a", 1, rule)
  {
    assert OfferOf(DOUBTER, EMPTY_CLAIM, ANYONE, env => true) == Offered(map["a" := 1], {});
    var run := Run(Restore(DOUBTER, map["a" := 1], {}), [], 0, true);
    var next := AdoptReplica(run, EMPTY_CLAIM, "a", 1, rule);
    assert AdoptAll(next, EMPTY_CLAIM, map["a" := 1], ["a"][1..], rule) == next;
  }

  /** Under either rule a present dot below the claim loses its pin, and is published as covered, on the snapshot's
      word alone: the invariant still holds because a claimed dot counts as settled. */
  lemma PurgeTrustsTheClaim(rule: PurgeRule)
    ensures Invariant(DOUBTER) && ReadLog(EMPTY_CLAIM, Dot("a", 0)).Found?
    ensures var after := Adopt(DOUBTER, EMPTY_CLAIM, ANYONE, env => true, ["a"], rule).c;
            Invariant(after) && after.engine == {} && Dot("a", 0) !in Blockers(after) &&
            Below(Subsumed(after), Dot("a", 0))
  {
    DoubterAdopts(rule);
    assert HeadCount(EMPTY_CLAIM, "a") == Some(1) by {
      assert Decimal.Value("1") == 10 * Decimal.Value("1"[..0]) + 1;
    }
    var after := Adopt(DOUBTER, EMPTY_CLAIM, ANYONE, env => true, ["a"], rule).c;
    assert after.pull == map["a" := 1] && after.held == {} && after.stalled == map[];
    SubsumedIsGreatest(after, "a", 1);
  }
}
