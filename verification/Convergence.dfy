/**
  Bootstrapping over a log with holes. The sweeper may have reclaimed any set of dots below the snapshot's
  coverage. On a channel that accepts everything, each bootstrap moves every lagging replica forward, never past
  an object that is still there without merging it, and enough of them end with the same state at every client,
  fresh or returning: the snapshot's state and the surviving log.
*/
module Convergence {
  import opened Wrappers
  import opened Counters
  import opened SyncModel
  import opened Buckets
  import opened Adoption

  /** A quiet store: it answers, its heads decode, and every dot below a head is present or covered. */
  ghost predicate Steady(s: Blobs, env: Envelope) {
    && s.down == {} && s.snapshot == Some(env)
    && env.Sealed? && env.kind == KSnapshot && env.body.Fold?
    && (forall r :: r in s.heads ==> HeadCount(s, r).Some?)
    && (forall r, n: nat :: r in s.heads && n < HeadCount(s, r).value ==>
          Dot(r, n) in s.log || Below(env.body.covered, Dot(r, n)))
  }

  /** Everything opens and merges. */
  ghost predicate Accepting(s: Blobs, env: Envelope, h: Host) {
    h.opens(env) && env.Sealed? && env.body.Fold? && h.restores(env.body.state) && AllMerge(s, h)
  }

  ghost predicate AllMerge(s: Blobs, h: Host) {
    s.down == {} &&
    forall d :: d in s.log ==> IsChange(s.log[d]) && h.opens(s.log[d]) && h.merges(s.log[d].body.delta)
  }

  function Everyone(env: Envelope): bool { true }

  /** `bootstrap`: adopt, then pull. */
  ghost function Bootstrap(c: Client, s: Blobs, h: Host, adopt: seq<Replica>, pull: seq<Replica>, rule: PurgeRule): Run
    requires AdoptOrder(c, s, h, Everyone, adopt)
  {
    var adopted := Adopt(c, s, h, Everyone, adopt, rule);
    if adopted.ok then Pull(adopted.c, s, h, pull) else adopted
  }

  /** The deltas of the log between two frontiers. */
  function Payloads(s: Blobs, f: Frontier, f': Frontier): set<Delta> {
    set d | d in s.log && Below(f', d) && !Below(f, d) && IsChange(s.log[d]) :: s.log[d].body.delta
  }

  /** From `c` to `c'` the frontier grew, no further than the heads, and the engine gained exactly what it passed. */
  ghost predicate Gains(s: Blobs, c: Client, c': Client) {
    && (forall r :: At(c.pull, r) <= At(c'.pull, r))
    && (forall r :: At(c'.pull, r) <= Max(At(c.pull, r), HeadCount(s, r).GetOr(0)))
    && c'.engine == c.engine + Payloads(s, c.pull, c'.pull)
    && c'.rejectedEtag == c.rejectedEtag
  }

  lemma PayloadsMeet(s: Blobs, f: Frontier, g: Frontier, h: Frontier)
    requires forall r :: At(f, r) <= At(g, r) <= At(h, r)
    ensures Payloads(s, f, h) == Payloads(s, f, g) + Payloads(s, g, h)
  {
    forall delta | delta in Payloads(s, f, h)
      ensures delta in Payloads(s, f, g) + Payloads(s, g, h)
    {
      var d :| d in s.log && Below(h, d) && !Below(f, d) && IsChange(s.log[d]) && s.log[d].body.delta == delta;
      assert Below(g, d) || !Below(g, d);
    }
    forall delta | delta in Payloads(s, f, g)
      ensures delta in Payloads(s, f, h)
    {
      var d :| d in s.log && Below(g, d) && !Below(f, d) && IsChange(s.log[d]) && s.log[d].body.delta == delta;
      assert Below(h, d);
    }
    forall delta | delta in Payloads(s, g, h)
      ensures delta in Payloads(s, f, h)
    {
      var d :| d in s.log && Below(h, d) && !Below(g, d) && IsChange(s.log[d]) && s.log[d].body.delta == delta;
      assert !Below(f, d);
    }
  }

  lemma GainsTransitive(s: Blobs, a: Client, b: Client, c: Client)
    requires Gains(s, a, b) && Gains(s, b, c)
    ensures Gains(s, a, c)
  {
    PayloadsMeet(s, a.pull, b.pull, c.pull);
  }

  /** The next object of a lagging replica is there. */
  predicate PresentNext(s: Blobs, c: Client, r: Replica) {
    r in s.heads && At(c.pull, r) < HeadCount(s, r).GetOr(0) && Dot(r, At(c.pull, r)) in s.log
  }

  /** The next object of a lagging replica is a hole the snapshot covers. */
  predicate HoleNext(s: Blobs, covered: Frontier, c: Client, r: Replica) {
    r in covered && At(c.pull, r) < Min(covered[r], HeadCount(s, r).GetOr(0)) && Dot(r, At(c.pull, r)) !in s.log
  }

  // ----- pulling -----

  lemma PayloadsOfStep(s: Blobs, f: Frontier, r: Replica, n: nat)
    requires At(f, r) <= n && Dot(r, n) in s.log && IsChange(s.log[Dot(r, n)])
    ensures Payloads(s, f, f[r := n + 1]) == Payloads(s, f, f[r := n]) + {s.log[Dot(r, n)].body.delta}
  {
    var g, h := f[r := n], f[r := n + 1];
    forall delta | delta in Payloads(s, f, h)
      ensures delta in Payloads(s, f, g) + {s.log[Dot(r, n)].body.delta}
    {
      var d :| d in s.log && Below(h, d) && !Below(f, d) && IsChange(s.log[d]) && s.log[d].body.delta == delta;
      assert Below(g, d) || d == Dot(r, n);
    }
    assert Below(h, Dot(r, n)) && !Below(f, Dot(r, n));
    assert s.log[Dot(r, n)].body.delta in Payloads(s, f, h);
    forall delta | delta in Payloads(s, f, g)
      ensures delta in Payloads(s, f, h)
    {
      var d :| d in s.log && Below(g, d) && !Below(f, d) && IsChange(s.log[d]) && s.log[d].body.delta == delta;
      assert Below(h, d);
    }
  }

  /** What a pull has when it stands at `n` in the gap of `r`, having merged everything present before. */
  ghost predicate AtGap(s: Blobs, run: Run, from: Client, r: Replica, n: nat) {
    run.ok && run.c.pull == from.pull && run.c.rejectedEtag == from.rejectedEtag && At(from.pull, r) <= n &&
    run.c.engine == from.engine + Payloads(s, from.pull, from.pull[r := n])
  }

  /** What the pull of the gap leaves: it stands at `end`, and has gained exactly what is present before. */
  ghost predicate Stands(s: Blobs, after: Run, from: Client, r: Replica, end: nat) {
    after.ok && after.c.pull == from.pull[r := end] && after.c.rejectedEtag == from.rejectedEtag &&
    after.c.engine == from.engine + Payloads(s, from.pull, from.pull[r := end])
  }

  lemma GapStep(run: Run, s: Blobs, h: Host, r: Replica, n: nat, from: Client)
    requires AllMerge(s, h) && AtGap(s, run, from, r, n) && Dot(r, n) in s.log
    ensures AtGap(s, TakePlain(run, h, Dot(r, n), s.log[Dot(r, n)]), from, r, n + 1)
  {
    PayloadsOfStep(s, from.pull, r, n);
  }

  /** Pulling a gap merges the run of present objects from `n`, and stops at a hole or at the head. */
  lemma {:induction false} PullGapStands(run: Run, s: Blobs, h: Host, r: Replica, n: nat, head: nat, from: Client)
    returns (end: nat)
    requires AllMerge(s, h) && AtGap(s, run, from, r, n)
    ensures Stands(s, PullGap(run, s, h, r, n, head), from, r, end)
    ensures n <= end && (end <= head || end == n) && (n < head && Dot(r, n) in s.log ==> end > n)
    decreases head - n
  {
    end := n;
    if n < head && Dot(r, n) in s.log {
      GapStep(run, s, h, r, n, from);
      end := PullGapStands(TakePlain(run, h, Dot(r, n), s.log[Dot(r, n)]), s, h, r, n + 1, head, from);
    }
  }

  lemma NoPayloads(s: Blobs, f: Frontier, f': Frontier)
    requires forall d :: d in s.log && Below(f', d) ==> Below(f, d)
    ensures Payloads(s, f, f') == {}
  {
  }

  lemma PullReplicaGains(run: Run, s: Blobs, h: Host, env: Envelope, r: Replica)
    requires Steady(s, env) && Accepting(s, env, h) && run.ok
    ensures var after := PullReplica(run, s, h, r);
            after.ok && Gains(s, run.c, after.c) &&
            (PresentNext(s, run.c, r) ==> At(after.c.pull, r) > At(run.c.pull, r)) &&
            (forall q :: q != r ==> At(after.c.pull, q) == At(run.c.pull, q))
  {
    NoPayloads(s, run.c.pull, run.c.pull);
    if r in s.heads {
      var n := At(run.c.pull, r);
      NoPayloads(s, run.c.pull, run.c.pull[r := n]);
      var end := PullGapStands(run, s, h, r, n, HeadCount(s, r).value, run.c);
    }
  }

  lemma {:induction false} PullAllGains(run: Run, s: Blobs, h: Host, env: Envelope, order: seq<Replica>)
    requires Steady(s, env) && Accepting(s, env, h) && run.ok
    ensures var after := PullAll(run, s, h, order);
            after.ok && Gains(s, run.c, after.c) &&
            forall r :: r in order && PresentNext(s, run.c, r) ==> At(after.c.pull, r) > At(run.c.pull, r)
    decreases order
  {
    if order == [] {
      NoPayloads(s, run.c.pull, run.c.pull);
    } else {
      PullReplicaGains(run, s, h, env, order[0]);
      var mid := PullReplica(run, s, h, order[0]);
      PullAllGains(mid, s, h, env, order[1..]);
      GainsTransitive(s, run.c, mid.c, PullAll(run, s, h, order).c);
      assert order == [order[0]] + order[1..];
    }
  }

  // ----- adopting -----

  lemma AdoptReplicaGains(run: Run, s: Blobs, covered: Frontier, r: Replica, rule: PurgeRule)
    requires s.down == {} && run.ok && r in covered
    ensures var after := AdoptReplica(run, s, r, covered[r], rule);
            after.ok && Gains(s, run.c, after.c) &&
            (HoleNext(s, covered, run.c, r) ==> At(after.c.pull, r) > At(run.c.pull, r)) &&
            (forall q :: q != r ==> At(after.c.pull, q) == At(run.c.pull, q))
  {
    var after := AdoptReplica(run, s, r, covered[r], rule);
    AdoptReplicaAdopts(run, s, covered, r, rule);
    NoPayloads(s, run.c.pull, after.c.pull);
  }

  lemma {:induction false} AdoptAllGains(run: Run, s: Blobs, covered: Frontier, order: seq<Replica>, rule: PurgeRule)
    requires s.down == {} && run.ok && forall i :: 0 <= i < |order| ==> order[i] in covered
    ensures var after := AdoptAll(run, s, covered, order, rule);
            after.ok && Gains(s, run.c, after.c) &&
            forall r :: r in order && HoleNext(s, covered, run.c, r) ==> At(after.c.pull, r) > At(run.c.pull, r)
    decreases order
  {
    if order == [] {
      NoPayloads(s, run.c.pull, run.c.pull);
    } else {
      AdoptReplicaGains(run, s, covered, order[0], rule);
      var mid := AdoptReplica(run, s, order[0], covered[order[0]], rule);
      AdoptAllGains(mid, s, covered, order[1..], rule);
      var after := AdoptAll(run, s, covered, order, rule);
      GainsTransitive(s, run.c, mid.c, after.c);
      HolesPassed(s, covered, run.c, mid.c, after.c, order);
    }
  }

  lemma HolesPassed(s: Blobs, covered: Frontier, c: Client, mid: Client, after: Client, order: seq<Replica>)
    requires order != [] && Gains(s, c, mid) && Gains(s, mid, after)
    requires forall q :: q != order[0] ==> At(mid.pull, q) == At(c.pull, q)
    requires HoleNext(s, covered, c, order[0]) ==> At(mid.pull, order[0]) > At(c.pull, order[0])
    requires forall r :: r in order[1..] && HoleNext(s, covered, mid, r) ==> At(after.pull, r) > At(mid.pull, r)
    ensures forall r :: r in order && HoleNext(s, covered, c, r) ==> At(after.pull, r) > At(c.pull, r)
  {
    forall r | r in order && HoleNext(s, covered, c, r)
      ensures At(after.pull, r) > At(c.pull, r)
    {
      assert order == [order[0]] + order[1..];
      if r != order[0] { assert HoleNext(s, covered, mid, r); }
    }
  }

  // ----- one bootstrap -----

  /** The listing a bootstrap walks: every head. */
  ghost predicate PullOrder(s: Blobs, order: seq<Replica>) {
    forall r :: r in s.heads ==> r in order
  }

  /** Every lagging replica moves on. */
  ghost predicate Progress(s: Blobs, c: Client, c': Client) {
    forall r :: r in s.heads && At(c.pull, r) < HeadCount(s, r).GetOr(0) ==> At(c'.pull, r) > At(c.pull, r)
  }

  lemma NextIsPresentOrHole(c: Client, s: Blobs, env: Envelope, r: Replica)
    requires Steady(s, env) && r in s.heads && At(c.pull, r) < HeadCount(s, r).GetOr(0)
    ensures PresentNext(s, c, r) || HoleNext(s, env.body.covered, c, r)
  {
    var d := Dot(r, At(c.pull, r));
    assert d in s.log || Below(env.body.covered, d);
  }

  lemma AdoptThenPull(restored: Client, mid: Client, after: Client, s: Blobs, env: Envelope, adopt: seq<Replica>, pull: seq<Replica>)
    requires Steady(s, env) && PullOrder(s, pull) && forall r :: r in env.body.covered ==> r in adopt
    requires Gains(s, restored, mid) && Gains(s, mid, after)
    requires forall r :: r in adopt && HoleNext(s, env.body.covered, restored, r) ==> At(mid.pull, r) > At(restored.pull, r)
    requires forall r :: r in pull && PresentNext(s, mid, r) ==> At(after.pull, r) > At(mid.pull, r)
    ensures Gains(s, restored, after) && Progress(s, restored, after)
  {
    GainsTransitive(s, restored, mid, after);
    forall r | r in s.heads && At(restored.pull, r) < HeadCount(s, r).GetOr(0)
      ensures At(after.pull, r) > At(restored.pull, r)
    {
      NextIsPresentOrHole(restored, s, env, r);
      if At(mid.pull, r) == At(restored.pull, r) {
        assert PresentNext(s, mid, r);
      }
    }
  }

  lemma AdoptGains(c: Client, s: Blobs, h: Host, env: Envelope, adopt: seq<Replica>, rule: PurgeRule)
    requires Steady(s, env) && Accepting(s, env, h) && c.rejectedEtag != Some(Etag(env))
    requires AdoptOrder(c, s, h, Everyone, adopt)
    ensures var restored := Restore(c, env.body.covered, env.body.state);
            var mid := Adopt(c, s, h, Everyone, adopt, rule);
            mid.ok && Gains(s, restored, mid.c) && (forall r :: r in env.body.covered ==> r in adopt) &&
            forall r :: r in adopt && HoleNext(s, env.body.covered, restored, r) ==> At(mid.c.pull, r) > At(restored.pull, r)
  {
    assert OfferOf(c, s, h, Everyone) == Offered(env.body.covered, env.body.state);
    var restored := Restore(c, env.body.covered, env.body.state);
    AdoptAllGains(Run(restored, [], 0, true), s, env.body.covered, adopt, rule);
  }

  lemma PullGains(c: Client, s: Blobs, h: Host, env: Envelope, pull: seq<Replica>)
    requires Steady(s, env) && Accepting(s, env, h)
    ensures var after := Pull(c, s, h, pull);
            after.ok && Gains(s, c, after.c) &&
            forall r :: r in pull && PresentNext(s, c, r) ==> At(after.c.pull, r) > At(c.pull, r)
  {
    PullAllGains(Run(c, [], 0, true), s, h, env, pull);
  }

  /** One bootstrap merges the snapshot and everything it passes, and moves every lagging replica on. */
  lemma BootstrapGains(c: Client, s: Blobs, h: Host, env: Envelope, adopt: seq<Replica>, pull: seq<Replica>, rule: PurgeRule)
    requires Steady(s, env) && Accepting(s, env, h) && c.rejectedEtag != Some(Etag(env))
    requires AdoptOrder(c, s, h, Everyone, adopt) && PullOrder(s, pull)
    ensures var after := Bootstrap(c, s, h, adopt, pull, rule);
            after.ok && Gains(s, Restore(c, env.body.covered, env.body.state), after.c) && Progress(s, c, after.c)
  {
    AdoptGains(c, s, h, env, adopt, rule);
    var restored := Restore(c, env.body.covered, env.body.state);
    var mid := Adopt(c, s, h, Everyone, adopt, rule).c;
    PullGains(mid, s, h, env, pull);
    var after := Pull(mid, s, h, pull).c;
    AdoptThenPull(restored, mid, after, s, env, adopt, pull);
    assert Progress(s, c, after);
  }

  // ----- repeated bootstraps -----

  /** `k` bootstraps in a row, each walking the same lists. */
  ghost function Bootstraps(c: Client, s: Blobs, h: Host, env: Envelope, adopt: seq<Replica>, pull: seq<Replica>,
                            rule: PurgeRule, k: nat): (after: Client)
    requires Steady(s, env) && Accepting(s, env, h) && c.rejectedEtag != Some(Etag(env))
    requires forall r :: r in adopt <==> r in env.body.covered
    requires PullOrder(s, pull)
    ensures after.rejectedEtag == c.rejectedEtag
  {
    if k == 0 then c
    else
      var before := Bootstraps(c, s, h, env, adopt, pull, rule, k - 1);
      BootstrapGains(before, s, h, env, adopt, pull, rule);
      Bootstrap(before, s, h, adopt, pull, rule).c
  }

  /** `c'` is at least `k` steps on, or at the head. */
  ghost predicate Reached(s: Blobs, c: Client, c': Client, k: nat) {
    forall r :: r in s.heads ==> At(c'.pull, r) >= Min(HeadCount(s, r).GetOr(0), At(c.pull, r) + k)
  }

  function WithState(c: Client, state: set<Delta>): Client {
    c.(engine := c.engine + state)
  }

  lemma OneMore(s: Blobs, base: Client, state: set<Delta>, before: Client, after: Client, k: nat)
    requires Gains(s, base, before) && state <= base.engine && Reached(s, base, before, k)
    requires Gains(s, WithState(before, state), after) && Progress(s, before, after)
    ensures Gains(s, base, after) && Reached(s, base, after, k + 1)
  {
    assert before.engine + state == before.engine;
    assert WithState(before, state) == before;
    GainsTransitive(s, base, before, after);
    forall r | r in s.heads
      ensures At(after.pull, r) >= Min(HeadCount(s, r).GetOr(0), At(base.pull, r) + k + 1)
    {
      assert At(before.pull, r) >= Min(HeadCount(s, r).GetOr(0), At(base.pull, r) + k);
    }
  }

  lemma {:induction false} BootstrapsGain(c: Client, s: Blobs, h: Host, env: Envelope, adopt: seq<Replica>, pull: seq<Replica>,
                                          rule: PurgeRule, k: nat)
    requires Steady(s, env) && Accepting(s, env, h) && c.rejectedEtag != Some(Etag(env))
    requires forall r :: r in adopt <==> r in env.body.covered
    requires PullOrder(s, pull) && k > 0
    ensures var after := Bootstraps(c, s, h, env, adopt, pull, rule, k);
            Gains(s, WithState(c, env.body.state), after) && Reached(s, WithState(c, env.body.state), after, k)
    decreases k
  {
    var before := Bootstraps(c, s, h, env, adopt, pull, rule, k - 1);
    var after := Bootstraps(c, s, h, env, adopt, pull, rule, k);
    LastBootstrap(c, s, h, env, adopt, pull, rule, k);
    var base := WithState(c, env.body.state);
    if k > 1 {
      BootstrapsGain(c, s, h, env, adopt, pull, rule, k - 1);
      OneMore(s, base, env.body.state, before, after, k - 1);
    } else {
      assert before == c;
    }
  }

  lemma LastBootstrap(c: Client, s: Blobs, h: Host, env: Envelope, adopt: seq<Replica>, pull: seq<Replica>,
                      rule: PurgeRule, k: nat)
    requires Steady(s, env) && Accepting(s, env, h) && c.rejectedEtag != Some(Etag(env))
    requires forall r :: r in adopt <==> r in env.body.covered
    requires PullOrder(s, pull) && k > 0
    ensures var before := Bootstraps(c, s, h, env, adopt, pull, rule, k - 1);
            var after := Bootstraps(c, s, h, env, adopt, pull, rule, k);
            Gains(s, WithState(before, env.body.state), after) && Progress(s, before, after)
  {
    var before := Bootstraps(c, s, h, env, adopt, pull, rule, k - 1);
    BootstrapGains(before, s, h, env, adopt, pull, rule);
  }

  /** The snapshot's state together with every object of the log below the heads. */
  function Everything(s: Blobs, state: set<Delta>): set<Delta> {
    state + set d | d in s.log && d.counter < HeadCount(s, d.replica).GetOr(0) && IsChange(s.log[d]) :: s.log[d].body.delta
  }

  /** From no frontier to every head's count, the payloads are the whole log below the heads. */
  lemma EverythingIsPulled(s: Blobs, state: set<Delta>, pull: Frontier)
    requires forall r :: At(pull, r) == HeadCount(s, r).GetOr(0)
    ensures Everything(s, state) == state + Payloads(s, map[], pull)
  {
    forall delta | delta in Everything(s, state)
      ensures delta in state + Payloads(s, map[], pull)
    {
      if delta !in state {
        var d :| d in s.log && d.counter < HeadCount(s, d.replica).GetOr(0) && IsChange(s.log[d]) && s.log[d].body.delta == delta;
        assert Below(pull, d) && !Below(map[], d);
      }
    }
    forall delta | delta in Payloads(s, map[], pull)
      ensures delta in Everything(s, state)
    {
      var d :| d in s.log && Below(pull, d) && !Below(map[], d) && IsChange(s.log[d]) && s.log[d].body.delta == delta;
    }
  }

  /** What a returning client must bring: its frontier beyond no head, all that is present below it merged, nothing the
      store does not have, and the snapshot not refused. */
  ghost predicate Qualifies(c: Client, s: Blobs, env: Envelope)
    requires env.Sealed? && env.body.Fold?
  {
    && (forall r :: At(c.pull, r) <= HeadCount(s, r).GetOr(0))
    && (forall d :: d in s.log && Below(c.pull, d) && IsChange(s.log[d]) ==> s.log[d].body.delta in c.engine)
    && c.engine <= Everything(s, env.body.state)
    && c.rejectedEtag != Some(Etag(env))
  }

  lemma FreshQualifies(replica: Replica, s: Blobs, env: Envelope)
    requires env.Sealed? && env.body.Fold?
    ensures Qualifies(Fresh(replica), s, env)
  {
  }

  /** What lies below the frontier, together with what is gained up to the heads, is everything. */
  lemma OldAndNew(c: Client, after: Client, s: Blobs, env: Envelope)
    requires env.Sealed? && env.body.Fold? && Qualifies(c, s, env)
    requires Gains(s, WithState(c, env.body.state), after) && forall r :: At(after.pull, r) == HeadCount(s, r).GetOr(0)
    ensures after.engine == Everything(s, env.body.state)
  {
    var state := env.body.state;
    PayloadsMeet(s, map[], c.pull, after.pull);
    EverythingIsPulled(s, state, after.pull);
    forall delta | delta in Payloads(s, map[], c.pull)
      ensures delta in c.engine
    {
      var d :| d in s.log && Below(c.pull, d) && !Below(map[], d) && IsChange(s.log[d]) && s.log[d].body.delta == delta;
    }
    assert after.engine == c.engine + state + Payloads(s, c.pull, after.pull);
  }

  /** After as many bootstraps as its longest lag, a fresh or returning client has every head's count and the whole
      state. */
  lemma BootstrapConverges(c: Client, s: Blobs, h: Host, env: Envelope, adopt: seq<Replica>, pull: seq<Replica>,
                           rule: PurgeRule, k: nat)
    requires Steady(s, env) && Accepting(s, env, h) && Qualifies(c, s, env)
    requires forall r :: r in adopt <==> r in env.body.covered
    requires PullOrder(s, pull) && k > 0 && forall r :: r in s.heads ==> HeadCount(s, r).value <= At(c.pull, r) + k
    ensures var after := Bootstraps(c, s, h, env, adopt, pull, rule, k);
            (forall r :: At(after.pull, r) == HeadCount(s, r).GetOr(0)) && after.engine == Everything(s, env.body.state)
  {
    BootstrapsGain(c, s, h, env, adopt, pull, rule, k);
    var after := Bootstraps(c, s, h, env, adopt, pull, rule, k);
    forall r
      ensures At(after.pull, r) == HeadCount(s, r).GetOr(0)
    {
      assert At(after.pull, r) <= Max(At(c.pull, r), HeadCount(s, r).GetOr(0));
    }
    OldAndNew(c, after, s, env);
  }

  /** Any two such clients, whatever lists they walk and however often beyond the need, end with the same state. */
  lemma ClientsAgree(a: Client, b: Client, s: Blobs, h: Host, h': Host, env: Envelope, adopt: seq<Replica>,
                     adopt': seq<Replica>, pull: seq<Replica>, pull': seq<Replica>, rule: PurgeRule, k: nat, k': nat)
    requires Steady(s, env) && Accepting(s, env, h) && Accepting(s, env, h') && Qualifies(a, s, env) && Qualifies(b, s, env)
    requires forall r :: r in adopt <==> r in env.body.covered
    requires forall r :: r in adopt' <==> r in env.body.covered
    requires PullOrder(s, pull) && PullOrder(s, pull') && k > 0 && k' > 0
    requires forall r :: r in s.heads ==> HeadCount(s, r).value <= At(a.pull, r) + k
    requires forall r :: r in s.heads ==> HeadCount(s, r).value <= At(b.pull, r) + k'
    ensures Bootstraps(a, s, h, env, adopt, pull, rule, k).engine ==
            Bootstraps(b, s, h', env, adopt', pull', rule, k').engine
  {
    BootstrapConverges(a, s, h, env, adopt, pull, rule, k);
    BootstrapConverges(b, s, h', env, adopt', pull', rule, k');
  }

  /** Fresh clients among them. */
  lemma FreshClientsAgree(a: Replica, b: Replica, s: Blobs, h: Host, h': Host, env: Envelope, adopt: seq<Replica>,
                          adopt': seq<Replica>, pull: seq<Replica>, pull': seq<Replica>, rule: PurgeRule, k: nat, k': nat)
    requires Steady(s, env) && Accepting(s, env, h) && Accepting(s, env, h')
    requires forall r :: r in adopt <==> r in env.body.covered
    requires forall r :: r in adopt' <==> r in env.body.covered
    requires PullOrder(s, pull) && PullOrder(s, pull') && k > 0 && k' > 0
    requires forall r :: r in s.heads ==> HeadCount(s, r).value <= k && HeadCount(s, r).value <= k'
    ensures Bootstraps(Fresh(a), s, h, env, adopt, pull, rule, k).engine ==
            Bootstraps(Fresh(b), s, h', env, adopt', pull', rule, k').engine
  {
    FreshQualifies(a, s, env);
    FreshQualifies(b, s, env);
    ClientsAgree(Fresh(a), Fresh(b), s, h, h', env, adopt, adopt', pull, pull', rule, k, k');
  }
}
