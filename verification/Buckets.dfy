/**
  The bucket invariant of the sync client: every dot below the pull frontier is settled (merged, folded as a
  cover, suppressed, or claimed by an adopted snapshot) or is a blocker (held or stalled), for every classifier.
  So everything below the subsumed frontier is settled. Also what each call may add to the client's book.
*/
module Buckets {
  import opened Wrappers
  import opened Counters
  import opened SyncModel
  import Decimal

  predicate Settled(c: Client, d: Dot) {
    d in c.folded || d in c.covers || d in c.suppressed || d in c.adopted
  }

  /** The dot is in some bucket: no call needs to judge it any more. */
  predicate Placed(c: Client, d: Dot) {
    Settled(c, d) || d in Blockers(c)
  }

  /** Every dot below `f` is settled, a blocker, or one of `waiting`. */
  ghost predicate AccountedAt(c: Client, f: Frontier, waiting: set<Dot>) {
    forall d :: Below(f, d) ==> Placed(c, d) || d in waiting
  }

  /** The book is complete up to `f`, and dropped dots count as suppressed. */
  ghost predicate BookedAt(c: Client, f: Frontier, waiting: set<Dot>) {
    AccountedAt(c, f, waiting) && c.dropped <= c.suppressed
  }

  /** Held and stalled are disjoint, lie below `f`, and are not waiting. */
  ghost predicate TidyAt(c: Client, f: Frontier, waiting: set<Dot>) {
    c.held !! c.stalled.Keys && forall d :: d in Blockers(c) ==> Below(f, d) && d !in waiting
  }

  ghost predicate Accounted(c: Client) {
    AccountedAt(c, c.pull, {})
  }

  /** What every call keeps but a verified pull that fails over a waiting delta. */
  ghost predicate Booked(c: Client) {
    BookedAt(c, c.pull, {})
  }

  /** What a pull that fails may give up: it leaves stalls above the frontier, to be met again. */
  ghost predicate Tidy(c: Client) {
    TidyAt(c, c.pull, {})
  }

  ghost predicate Invariant(c: Client) {
    Booked(c) && Tidy(c)
  }

  // ----- what calls that only read the store may add -----

  predicate IsChange(env: Envelope) {
    env.Sealed? && env.kind == KDelta && env.body.Change?
  }

  /** The deltas in the objects of a log. */
  function DeltasOf(log: map<Dot, Envelope>): set<Delta> {
    set d | d in log && IsChange(log[d]) :: log[d].body.delta
  }

  /** `c'` comes from `c` by reading log objects of `s`: what it newly merged or folded was there, and is kept. */
  ghost predicate Reads(c: Client, c': Client, s: Blobs) {
    && c'.replica == c.replica && c'.next == c.next && c'.prev == c.prev && c'.adopted == c.adopted
    && c'.rejectedEtag == c.rejectedEtag
    && c.engine <= c'.engine <= c.engine + DeltasOf(s.log)
    && c.folded <= c'.folded && c.covers <= c'.covers && c.suppressed <= c'.suppressed
    && (forall d :: d in c'.folded && d !in c.folded ==>
          d in s.log && IsChange(s.log[d]) && s.log[d].body.delta in c'.engine)
    && (forall d :: d in c'.covers && d !in c.covers ==>
          d in s.log && s.log[d].Sealed? && s.log[d].kind == KCover)
    && (forall d :: Below(c'.pull, d) && !Below(c.pull, d) ==> d in s.log)
    && (forall d :: Below(c.pull, d) ==> Below(c'.pull, d))
  }

  // ----- the subsumed frontier -----

  /** Each replica is covered up to its first blocker: nothing below it is blocked, and no claim could go further. */
  lemma SubsumedIsGreatest(c: Client, r: Replica, n: nat)
    ensures Subsumed(c).Keys == c.pull.Keys
    ensures n <= At(Subsumed(c), r)
        <==> n <= At(c.pull, r) && forall k :: 0 <= k < n ==> Dot(r, k) !in Blockers(c)
  {
  }

  /** The dots a client publishes as covered are all settled. */
  lemma SubsumedIsSettled(c: Client)
    requires Accounted(c)
    ensures forall d :: Below(Subsumed(c), d) ==> Settled(c, d) && Below(c.pull, d) && d !in Blockers(c)
  {
    forall d | Below(Subsumed(c), d)
      ensures Settled(c, d) && Below(c.pull, d) && d !in Blockers(c)
    {
      SubsumedIsGreatest(c, d.replica, At(Subsumed(c), d.replica));
      assert d == Dot(d.replica, d.counter) && Placed(c, d);
    }
  }

  // ----- disposing of one dot -----

  /** `c'` is `c` with `d` put in a bucket; no other dot changes bucket. */
  ghost predicate PutsAway(c: Client, c': Client, d: Dot) {
    && c'.pull == c.pull && c'.adopted == c.adopted
    && c.folded <= c'.folded && c.covers <= c'.covers && c.suppressed <= c'.suppressed
    && c'.held - {d} == c.held - {d} && c'.stalled.Keys - {d} == c.stalled.Keys - {d}
    && Placed(c', d)
    && c'.dropped <= c.dropped + (c'.suppressed * {d})
  }

  /** `d` is not both held and stalled. */
  predicate Apart(c: Client, d: Dot) {
    !(d in c.held && d in c.stalled)
  }

  lemma PutAwayMoves(c: Client, c': Client, d: Dot, e: Dot)
    requires PutsAway(c, c', d) && e != d
    ensures (e in c'.held <==> e in c.held) && (e in c'.stalled <==> e in c.stalled)
  {
    assert e in c.held <==> e in c.held - {d};
    assert e in c.stalled.Keys <==> e in c.stalled.Keys - {d};
    assert e in c'.held <==> e in c'.held - {d};
    assert e in c'.stalled.Keys <==> e in c'.stalled.Keys - {d};
  }

  /** Putting away a dot, be it at the frontier's edge, below it, or waiting, keeps the book complete. */
  lemma PutAwayKeeps(c: Client, c': Client, d: Dot, f: Frontier, f': Frontier, waiting: set<Dot>)
    requires BookedAt(c, f, waiting) && PutsAway(c, c', d)
    requires forall e :: e != d ==> (Below(f', e) <==> Below(f, e))
    ensures BookedAt(c', f', waiting - {d})
    ensures TidyAt(c, f, waiting) && Below(f', d) && Apart(c', d) ==> TidyAt(c', f', waiting - {d})
  {
    forall e | Below(f', e)
      ensures Settled(c', e) || e in Blockers(c') || e in waiting - {d}
    {
      if e != d { PutAwayMoves(c, c', d, e); }
    }
    if TidyAt(c, f, waiting) && Below(f', d) && Apart(c', d) {
      forall e | e in Blockers(c')
        ensures Below(f', e) && e !in waiting - {d} && !(e in c'.held && e in c'.stalled.Keys)
      {
        if e != d { PutAwayMoves(c, c', d, e); }
      }
    }
  }

  /** What a step that looks at `d` ends with, `u` being `c` with `d` taken out of a bucket: it stays, is folded as a
      cover, merged, held, stalled, or dropped. */
  ghost predicate Ends(c: Client, u: Client, c': Client, s: Blobs, h: Host, d: Dot) {
    || c' == c
    || (d in s.log && Opens(h, KCover, s.log[d]) && c' == u.(covers := u.covers + {d}))
    || (d in s.log && Opens(h, KDelta, s.log[d]) && Merges(h, s.log[d]) && c' == Absorb(u, d, s.log[d]))
    || c' == u.(held := u.held + {d})
    || (d in c'.stalled && c' == Stall(u, d, c'.stalled[d]).(quarantined := c'.quarantined))
    || c' == u.(dropped := u.dropped + {d}, suppressed := u.suppressed + {d})
  }

  ghost predicate TakenOut(c: Client, u: Client, d: Dot) {
    u == c || u == c.(held := c.held - {d}) || u == c.(stalled := c.stalled - {d})
  }

  lemma EndsPutAway(c: Client, u: Client, c': Client, s: Blobs, h: Host, d: Dot)
    requires Ends(c, u, c', s, h, d) && TakenOut(c, u, d) && (c' == c ==> Placed(c, d))
    ensures PutsAway(c, c', d) && (Apart(c, d) && d !in Blockers(u) ==> Apart(c', d))
  {
  }

  lemma EndsReads(c: Client, u: Client, c': Client, s: Blobs, h: Host, d: Dot)
    requires Ends(c, u, c', s, h, d) && TakenOut(c, u, d)
    ensures Reads(c, c', s)
  {
    if d in s.log && Opens(h, KDelta, s.log[d]) && Merges(h, s.log[d]) && c' == Absorb(u, d, s.log[d]) {
      AbsorbReads(c, u, s, h, d);
    } else if d in s.log && Opens(h, KCover, s.log[d]) && c' == u.(covers := u.covers + {d}) {
      FoldReads(c, u, s, h, d);
    } else {
      ShelvingReads(c, c', s);
    }
  }

  lemma AbsorbReads(c: Client, u: Client, s: Blobs, h: Host, d: Dot)
    requires TakenOut(c, u, d) && d in s.log && Opens(h, KDelta, s.log[d]) && Merges(h, s.log[d])
    ensures Reads(c, Absorb(u, d, s.log[d]), s)
  {
    assert s.log[d].body.delta in DeltasOf(s.log);
  }

  lemma FoldReads(c: Client, u: Client, s: Blobs, h: Host, d: Dot)
    requires TakenOut(c, u, d) && d in s.log && Opens(h, KCover, s.log[d])
    ensures Reads(c, u.(covers := u.covers + {d}), s)
  {
  }

  /** Holding, stalling or dropping a dot merges and folds nothing. */
  lemma ShelvingReads(c: Client, c': Client, s: Blobs)
    requires c.suppressed <= c'.suppressed
    requires c' == c.(held := c'.held, stalled := c'.stalled, dropped := c'.dropped, suppressed := c'.suppressed,
                      quarantined := c'.quarantined)
    ensures Reads(c, c', s)
  {
  }

  lemma EndsSpares(c: Client, u: Client, c': Client, s: Blobs, h: Host, d: Dot, e: Dot)
    requires Ends(c, u, c', s, h, d) && TakenOut(c, u, d) && e != d
    ensures Placed(c', e) <==> Placed(c, e)
  {
  }

  lemma TakePlainEnds(run: Run, s: Blobs, h: Host, d: Dot)
    requires d in s.log
    ensures var after := TakePlain(run, h, d, s.log[d]);
            Ends(run.c, run.c, after.c, s, h, d) && Placed(after.c, d) && after.ok == run.ok
  {
  }

  lemma DrainOneEnds(run: Run, s: Blobs, h: Host, g: Classifier, d: Dot)
    ensures Ends(run.c, Unhold(run, d).c, DrainOne(run, s, h, g, d).c, s, h, d)
  {
  }

  lemma JudgeOneEnds(run: Run, s: Blobs, h: Host, g: Classifier, p: Pending)
    requires p.dot in s.log && s.log[p.dot] == p.env && Opens(h, KDelta, p.env)
    ensures var after := JudgeOne(run, h, g, p);
            Ends(run.c, run.c, after.c, s, h, p.dot) && Placed(after.c, p.dot) && after.ok == run.ok
  {
  }

  lemma RetryOneEnds(run: Run, s: Blobs, h: Host, g: Classifier, d: Dot)
    ensures Ends(run.c, Unstall(run, d).c, RetryOne(run, s, h, g, d).c, s, h, d)
  {
  }

  // ----- pull -----

  lemma TakePlainKeeps(run: Run, s: Blobs, h: Host, r: Replica, n: nat)
    requires Dot(r, n) in s.log && BookedAt(run.c, run.c.pull[r := n], {})
    ensures var after := TakePlain(run, h, Dot(r, n), s.log[Dot(r, n)]);
            after.ok == run.ok && after.c.pull == run.c.pull && Reads(run.c, after.c, s) &&
            BookedAt(after.c, run.c.pull[r := n + 1], {}) &&
            (TidyAt(run.c, run.c.pull[r := n], {}) ==> TidyAt(after.c, run.c.pull[r := n + 1], {}))
  {
    var d := Dot(r, n);
    assert !Below(run.c.pull[r := n], d);
    TakePlainEnds(run, s, h, d);
    var after := TakePlain(run, h, d, s.log[d]).c;
    EndsReads(run.c, run.c, after, s, h, d);
    EndsPutAway(run.c, run.c, after, s, h, d);
    PutAwayKeeps(run.c, after, d, run.c.pull[r := n], run.c.pull[r := n + 1], {});
  }

  lemma {:induction false} PullGapKeeps(run: Run, s: Blobs, h: Host, r: Replica, n: nat, head: nat)
    requires BookedAt(run.c, run.c.pull[r := n], {}) && At(run.c.pull, r) <= n
    requires forall k :: At(run.c.pull, r) <= k < n ==> Dot(r, k) in s.log
    ensures var after := PullGap(run, s, h, r, n, head);
            Reads(run.c, after.c, s) && Booked(after.c) &&
            (TidyAt(run.c, run.c.pull[r := n], {}) && after.ok && run.ok ==> Tidy(after.c))
    decreases head - n
  {
    if n < head && ReadLog(s, Dot(r, n)).Found? {
      TakePlainKeeps(run, s, h, r, n);
      var mid := TakePlain(run, h, Dot(r, n), s.log[Dot(r, n)]);
      PullGapKeeps(mid, s, h, r, n + 1, head);
      ReadsOn(run.c, mid.c, PullGap(run, s, h, r, n, head).c, s);
    }
  }

  lemma ReadsOn(a: Client, b: Client, c: Client, s: Blobs)
    requires Reads(a, b, s) && Reads(b, c, s)
    ensures Reads(a, c, s)
  {
  }

  lemma {:induction false} PullAllKeeps(run: Run, s: Blobs, h: Host, order: seq<Replica>)
    requires Booked(run.c)
    ensures var after := PullAll(run, s, h, order);
            Reads(run.c, after.c, s) && Booked(after.c) && (Tidy(run.c) && after.ok ==> Tidy(after.c))
    decreases order
  {
    if order != [] && run.ok {
      var r := order[0];
      if HeadCount(s, r).Some? {
        PullGapKeeps(run, s, h, r, At(run.c.pull, r), HeadCount(s, r).value);
      }
      PullAllKeeps(PullReplica(run, s, h, r), s, h, order[1..]);
    }
  }

  /** `pull` keeps the invariant; even when a store access fails, no dot below the frontier is unaccounted for. */
  lemma PullKeeps(c: Client, s: Blobs, h: Host, order: seq<Replica>)
    requires Booked(c)
    ensures var after := Pull(c, s, h, order);
            Reads(c, after.c, s) && Booked(after.c) && (Tidy(c) && after.ok ==> Invariant(after.c))
  {
    PullAllKeeps(Run(c, [], 0, true), s, h, order);
  }

  // ----- pull_verified -----

  lemma DrainOneKeeps(run: Run, s: Blobs, h: Host, g: Classifier, d: Dot)
    requires Booked(run.c) && d in run.c.held
    ensures var after := DrainOne(run, s, h, g, d);
            Reads(run.c, after.c, s) && Booked(after.c) && (Tidy(run.c) ==> Tidy(after.c)) &&
            run.c.held - {d} <= after.c.held
  {
    var u, after := Unhold(run, d).c, DrainOne(run, s, h, g, d).c;
    DrainOneEnds(run, s, h, g, d);
    EndsReads(run.c, u, after, s, h, d);
    assert d in Blockers(run.c);
    EndsPutAway(run.c, u, after, s, h, d);
    PutAwayKeeps(run.c, after, d, run.c.pull, run.c.pull, {});
  }

  /** `order` lists held dots, each once. */
  predicate Distinct<T(==)>(order: seq<T>) {
    forall i, j :: 0 <= i < j < |order| ==> order[i] != order[j]
  }

  lemma {:induction false} DrainKeeps(run: Run, s: Blobs, h: Host, g: Classifier, order: seq<Dot>)
    requires Booked(run.c) && Distinct(order) && forall i :: 0 <= i < |order| ==> order[i] in run.c.held
    ensures var after := Drain(run, s, h, g, order);
            Reads(run.c, after.c, s) && Booked(after.c) && (Tidy(run.c) ==> Tidy(after.c))
    decreases order
  {
    if order != [] && run.ok {
      DrainOneKeeps(run, s, h, g, order[0]);
      DrainOneLeaves(run, s, h, g, order);
      DrainKeeps(DrainOne(run, s, h, g, order[0]), s, h, g, order[1..]);
    }
  }

  /** Draining the first of the listed dots leaves the others held. */
  lemma DrainOneLeaves(run: Run, s: Blobs, h: Host, g: Classifier, order: seq<Dot>)
    requires order != [] && Distinct(order) && forall i :: 0 <= i < |order| ==> order[i] in run.c.held
    ensures var mid := DrainOne(run, s, h, g, order[0]);
            Distinct(order[1..]) && forall i :: 0 <= i < |order[1..]| ==> order[1..][i] in mid.c.held
  {
    var mid := DrainOne(run, s, h, g, order[0]);
    forall i | 0 <= i < |order[1..]|
      ensures order[1..][i] in mid.c.held
    {
      assert order[1..][i] == order[i + 1] && order[0] != order[i + 1];
    }
  }

  function Dots(buffer: seq<Pending>): set<Dot> {
    set i | 0 <= i < |buffer| :: buffer[i].dot
  }

  /** Every buffered delta was read at its dot and opened as a delta; no dot is buffered twice. */
  ghost predicate BufferFrom(buffer: seq<Pending>, s: Blobs, h: Host) {
    && (forall i :: 0 <= i < |buffer| ==>
          buffer[i].dot in s.log && s.log[buffer[i].dot] == buffer[i].env && Opens(h, KDelta, buffer[i].env))
    && (forall i, j :: 0 <= i < j < |buffer| ==> buffer[i].dot != buffer[j].dot)
  }

  lemma DotsOfAppend(buffer: seq<Pending>, p: Pending)
    ensures Dots(buffer + [p]) == Dots(buffer) + {p.dot}
  {
    var longer := buffer + [p];
    assert longer[|buffer|] == p;
    forall d | d in Dots(buffer)
      ensures d in Dots(longer)
    {
      var i :| 0 <= i < |buffer| && buffer[i].dot == d;
      assert longer[i].dot == d;
    }
  }

  ghost predicate ScanBooked(scan: Scan, f: Frontier, s: Blobs, h: Host) {
    && BookedAt(scan.run.c, f, Dots(scan.buffer))
    && BufferFrom(scan.buffer, s, h)
    && forall d :: d in Dots(scan.buffer) ==> Below(f, d)
  }

  ghost predicate ScanTidy(scan: Scan, f: Frontier) {
    TidyAt(scan.run.c, f, Dots(scan.buffer))
  }

  lemma ScanOneReads(scan: Scan, s: Blobs, h: Host, d: Dot)
    requires d in s.log
    ensures var after := ScanOne(scan, h, d, s.log[d]); Reads(scan.run.c, after.run.c, s) && after.run.ok == scan.run.ok
  {
  }

  lemma ScanOneKeeps(scan: Scan, s: Blobs, h: Host, r: Replica, n: nat)
    requires Dot(r, n) in s.log && ScanBooked(scan, scan.run.c.pull[r := n], s, h)
    ensures var after := ScanOne(scan, h, Dot(r, n), s.log[Dot(r, n)]);
            after.run.c.pull == scan.run.c.pull && ScanBooked(after, scan.run.c.pull[r := n + 1], s, h) &&
            (ScanTidy(scan, scan.run.c.pull[r := n]) ==> ScanTidy(after, scan.run.c.pull[r := n + 1]))
  {
    var d, f, f' := Dot(r, n), scan.run.c.pull[r := n], scan.run.c.pull[r := n + 1];
    var after := ScanOne(scan, h, d, s.log[d]);
    assert !Below(f, d);
    assert d !in Dots(scan.buffer);
    if after.buffer == scan.buffer {
      PutAwayKeeps(scan.run.c, after.run.c, d, f, f', Dots(scan.buffer));
      assert Dots(scan.buffer) - {d} == Dots(scan.buffer);
    } else {
      BufferOneKeeps(scan, s, h, d, f, f');
    }
  }

  lemma BufferOneKeeps(scan: Scan, s: Blobs, h: Host, d: Dot, f: Frontier, f': Frontier)
    requires d in s.log && ScanBooked(scan, f, s, h) && Opens(h, KDelta, s.log[d])
    requires d !in Dots(scan.buffer) && !Below(f, d)
    requires Below(f', d) && forall e :: e != d ==> (Below(f', e) <==> Below(f, e))
    ensures var after := scan.(buffer := scan.buffer + [Pending(d, s.log[d])]);
            ScanBooked(after, f', s, h) && (ScanTidy(scan, f) ==> ScanTidy(after, f'))
  {
    var after := scan.(buffer := scan.buffer + [Pending(d, s.log[d])]);
    DotsOfAppend(scan.buffer, Pending(d, s.log[d]));
    assert forall i :: 0 <= i < |scan.buffer| ==> scan.buffer[i].dot in Dots(scan.buffer);
    assert BufferFrom(after.buffer, s, h);
  }

  lemma {:induction false} ScanGapKeeps(scan: Scan, s: Blobs, h: Host, r: Replica, n: nat, head: nat)
    requires ScanBooked(scan, scan.run.c.pull[r := n], s, h) && At(scan.run.c.pull, r) <= n
    requires forall k :: At(scan.run.c.pull, r) <= k < n ==> Dot(r, k) in s.log
    ensures var after, f := ScanGap(scan, s, h, r, n, head), scan.run.c.pull[r := n];
            Reads(scan.run.c, after.run.c, s) && BookedAt(after.run.c, after.run.c.pull, Dots(after.buffer)) &&
            BufferFrom(after.buffer, s, h) &&
            (after.run.ok && scan.run.ok ==> ScanBooked(after, after.run.c.pull, s, h)) &&
            (after.run.ok && scan.run.ok && ScanTidy(scan, f) ==> ScanTidy(after, after.run.c.pull))
    decreases head - n
  {
    if n < head && ReadLog(s, Dot(r, n)).Found? {
      ScanOneReads(scan, s, h, Dot(r, n));
      ScanOneKeeps(scan, s, h, r, n);
      var mid := ScanOne(scan, h, Dot(r, n), s.log[Dot(r, n)]);
      ScanGapKeeps(mid, s, h, r, n + 1, head);
    }
  }

  lemma {:induction false} ScanAllKeeps(scan: Scan, s: Blobs, h: Host, order: seq<Replica>)
    requires BookedAt(scan.run.c, scan.run.c.pull, Dots(scan.buffer)) && BufferFrom(scan.buffer, s, h)
    requires scan.run.ok ==> ScanBooked(scan, scan.run.c.pull, s, h)
    ensures var after := ScanAll(scan, s, h, order);
            Reads(scan.run.c, after.run.c, s) && BookedAt(after.run.c, after.run.c.pull, Dots(after.buffer)) &&
            BufferFrom(after.buffer, s, h) &&
            (after.run.ok ==> ScanBooked(after, after.run.c.pull, s, h)) &&
            (after.run.ok && ScanTidy(scan, scan.run.c.pull) ==> ScanTidy(after, after.run.c.pull))
    decreases order
  {
    if order != [] && scan.run.ok {
      var r := order[0];
      if HeadCount(s, r).Some? {
        ScanGapKeeps(scan, s, h, r, At(scan.run.c.pull, r), HeadCount(s, r).value);
      }
      ScanAllKeeps(ScanReplica(scan, s, h, r), s, h, order[1..]);
    }
  }

  lemma {:induction false} JudgeKeeps(run: Run, s: Blobs, h: Host, g: Classifier, buffer: seq<Pending>)
    requires BookedAt(run.c, run.c.pull, Dots(buffer)) && BufferFrom(buffer, s, h)
    requires forall d :: d in Dots(buffer) ==> Below(run.c.pull, d)
    ensures var after := Judge(run, h, g, buffer);
            Reads(run.c, after.c, s) && Booked(after.c) && (TidyAt(run.c, run.c.pull, Dots(buffer)) ==> Tidy(after.c))
    decreases buffer
  {
    if buffer == [] {
      assert Dots(buffer) == {};
    } else {
      var p, rest := buffer[0], buffer[1..];
      assert Dots(buffer) == Dots(rest) + {p.dot} by {
        assert buffer == [p] + rest;
        assert forall i :: 0 < i < |buffer| ==> buffer[i] == rest[i - 1];
      }
      assert p.dot !in Dots(rest);
      assert p.dot in s.log && s.log[p.dot] == p.env;
      var mid := JudgeOne(run, h, g, p);
      JudgeOneEnds(run, s, h, g, p);
      EndsReads(run.c, run.c, mid.c, s, h, p.dot);
      EndsPutAway(run.c, run.c, mid.c, s, h, p.dot);
      PutAwayKeeps(run.c, mid.c, p.dot, run.c.pull, run.c.pull, Dots(buffer));
      assert Dots(buffer) - {p.dot} == Dots(rest);
      JudgeKeeps(mid, s, h, g, rest);
    }
  }

  /** The lists a verified pull walks: the held dots and the listed heads, each once. */
  ghost predicate DrainOrder(c: Client, order: seq<Dot>) {
    Distinct(order) && forall i :: 0 <= i < |order| ==> order[i] in c.held
  }

  lemma ScannedKeeps(c: Client, s: Blobs, h: Host, g: Classifier, drain: seq<Dot>, order: seq<Replica>)
    requires Booked(c) && DrainOrder(c, drain)
    ensures var scan := Scanned(c, s, h, g, drain, order);
            Reads(c, scan.run.c, s) && BookedAt(scan.run.c, scan.run.c.pull, Dots(scan.buffer)) &&
            (scan.run.ok ==> ScanBooked(scan, scan.run.c.pull, s, h)) &&
            (scan.run.ok && Tidy(c) ==> ScanTidy(scan, scan.run.c.pull))
  {
    var run := Run(c, [], 0, true);
    DrainKeeps(run, s, h, g, drain);
    var drained := Drain(run, s, h, g, drain);
    assert Dots([]) == {};
    if drained.ok && HeadListing !in s.down {
      ScanAllKeeps(Scan(drained, []), s, h, order);
    }
  }

  /** A verified pull that succeeds keeps the invariant, whatever the classifier decides. */
  lemma PullVerifiedKeeps(c: Client, s: Blobs, h: Host, g: Classifier, drain: seq<Dot>, order: seq<Replica>)
    requires Booked(c) && DrainOrder(c, drain)
    ensures var after := PullVerified(c, s, h, g, drain, order);
            Reads(c, after.c, s) && (after.ok ==> Booked(after.c)) && (after.ok && Tidy(c) ==> Invariant(after.c))
  {
    ScannedKeeps(c, s, h, g, drain, order);
    var scan := Scanned(c, s, h, g, drain, order);
    if scan.run.ok {
      JudgeKeeps(scan.run, s, h, g, scan.buffer);
    }
  }

  // ----- a verified pull that fails -----

  /** Where reading the counters of `r` from `n` stops: the first absent one or the head, if no access fails first. */
  function GapEnd(s: Blobs, r: Replica, n: nat, head: nat): (m: Option<nat>)
    ensures m.Some? ==> n <= m.value
    decreases head - n
  {
    if n >= head then Some(n)
    else match ReadLog(s, Dot(r, n))
      case Failed => None
      case Absent => Some(n)
      case Found(_) => GapEnd(s, r, n + 1, head)
  }

  /** Where a pull from the frontier `f` leaves `r`, if no access fails first. */
  function ScanEnd(f: Frontier, s: Blobs, r: Replica): (m: Option<nat>)
    ensures m.Some? ==> At(f, r) <= m.value
  {
    if HeadPointer(r) in s.down then None
    else match HeadCount(s, r)
      case None => Some(At(f, r))
      case Some(head) => GapEnd(s, r, At(f, r), head)
  }

  /** The objects of `r` from `n` up to `m` that open as deltas. */
  function Deltas(s: Blobs, h: Host, r: Replica, n: nat, m: nat): set<Dot> {
    set k | n <= k < m && Dot(r, k) in s.log && Opens(h, KDelta, s.log[Dot(r, k)]) :: Dot(r, k)
  }

  /** No access fails while the replicas of `order` are read from the frontier `f`. */
  predicate Readable(f: Frontier, s: Blobs, order: seq<Replica>) {
    forall i :: 0 <= i < |order| ==> ScanEnd(f, s, order[i]).Some?
  }

  /** The deltas met, from the frontier `f`, in the replicas listed before the first access that fails. */
  function Waiting(f: Frontier, s: Blobs, h: Host, order: seq<Replica>): set<Dot>
    decreases order
  {
    if order == [] then {}
    else match ScanEnd(f, s, order[0])
      case None => {}
      case Some(m) => Deltas(s, h, order[0], At(f, order[0]), m) + Waiting(f, s, h, order[1..])
  }

  /** From `c` to `c'` no delta object found its first bucket, and none lost its last. */
  ghost predicate Unjudged(c: Client, c': Client, s: Blobs, h: Host) {
    forall d :: d in s.log && Opens(h, KDelta, s.log[d]) ==> (Placed(c', d) <==> Placed(c, d))
  }

  lemma DrainOneUnjudged(c: Client, run: Run, s: Blobs, h: Host, g: Classifier, d: Dot)
    requires Unjudged(c, run.c, s, h) && d in run.c.held
    ensures var after := DrainOne(run, s, h, g, d);
            Unjudged(c, after.c, s, h) && after.c.pull == run.c.pull &&
            (after.ok <==> run.ok && LogObject(d) !in s.down)
  {
    var u, after := Unhold(run, d).c, DrainOne(run, s, h, g, d).c;
    DrainOneEnds(run, s, h, g, d);
    EndsPutAway(run.c, u, after, s, h, d);
    forall e | e in s.log && Opens(h, KDelta, s.log[e])
      ensures Placed(after, e) <==> Placed(c, e)
    {
      if e != d { EndsSpares(run.c, u, after, s, h, d, e); }
    }
  }

  lemma {:induction false} DrainUnjudged(c: Client, run: Run, s: Blobs, h: Host, g: Classifier, order: seq<Dot>)
    requires Unjudged(c, run.c, s, h) && run.ok
    requires Distinct(order) && forall i :: 0 <= i < |order| ==> order[i] in run.c.held
    ensures var after := Drain(run, s, h, g, order);
            Unjudged(c, after.c, s, h) && after.c.pull == run.c.pull &&
            (after.ok <==> forall d :: d in order ==> LogObject(d) !in s.down)
    decreases order
  {
    if order != [] {
      DrainOneUnjudged(c, run, s, h, g, order[0]);
      DrainOneLeaves(run, s, h, g, order);
      var mid := DrainOne(run, s, h, g, order[0]);
      assert forall d :: d in order <==> d == order[0] || d in order[1..];
      if mid.ok {
        DrainUnjudged(c, mid, s, h, g, order[1..]);
      } else {
        assert Drain(mid, s, h, g, order[1..]) == mid;
      }
    }
  }

  lemma ScanOneUnjudged(c: Client, scan: Scan, s: Blobs, h: Host, d: Dot)
    requires Unjudged(c, scan.run.c, s, h) && d in s.log
    ensures var after := ScanOne(scan, h, d, s.log[d]);
            Unjudged(c, after.run.c, s, h) && after.run.c.pull == scan.run.c.pull && after.run.ok == scan.run.ok
    ensures Dots(ScanOne(scan, h, d, s.log[d]).buffer)
         == Dots(scan.buffer) + (if Opens(h, KDelta, s.log[d]) then {d} else {})
  {
    DotsOfAppend(scan.buffer, Pending(d, s.log[d]));
  }

  /** What scanning one gap buffers: the deltas up to where it stops, or some of this gap's dots if it fails. */
  lemma {:induction false} ScanGapWaits(c: Client, scan: Scan, s: Blobs, h: Host, r: Replica, n: nat, head: nat)
    requires Unjudged(c, scan.run.c, s, h) && scan.run.ok
    ensures var after, m := ScanGap(scan, s, h, r, n, head), GapEnd(s, r, n, head);
            Unjudged(c, after.run.c, s, h) && after.run.ok == m.Some? &&
            (m.Some? ==> after.run.c.pull == scan.run.c.pull[r := m.value] &&
                         Dots(after.buffer) == Dots(scan.buffer) + Deltas(s, h, r, n, m.value)) &&
            (m.None? ==> after.run.c.pull == scan.run.c.pull && Dots(scan.buffer) <= Dots(after.buffer) &&
                         forall d :: d in Dots(after.buffer) - Dots(scan.buffer) ==> d.replica == r && n <= d.counter)
    decreases head - n
  {
    if n < head && ReadLog(s, Dot(r, n)).Found? {
      var d := Dot(r, n);
      ScanOneUnjudged(c, scan, s, h, d);
      var mid := ScanOne(scan, h, d, s.log[d]);
      ScanGapWaits(c, mid, s, h, r, n + 1, head);
      var m := GapEnd(s, r, n, head);
      if m.Some? {
        assert Deltas(s, h, r, n, m.value)
            == (if Opens(h, KDelta, s.log[d]) then {d} else {}) + Deltas(s, h, r, n + 1, m.value);
      }
    }
  }

  lemma {:induction false} GapEndAgain(s: Blobs, r: Replica, n: nat, head: nat)
    requires GapEnd(s, r, n, head).Some?
    ensures var m := GapEnd(s, r, n, head).value; GapEnd(s, r, m, head) == Some(m)
    decreases head - n
  {
    if n < head && ReadLog(s, Dot(r, n)).Found? {
      GapEndAgain(s, r, n + 1, head);
    }
  }

  /** A scan under way from `c`: each replica stands where `c` left it or has been read, and all that was met is
      buffered. */
  ghost predicate Scanning(c: Client, scan: Scan, s: Blobs, h: Host) {
    && Unjudged(c, scan.run.c, s, h)
    && (forall d :: d in Dots(scan.buffer) ==> Below(scan.run.c.pull, d))
    && forall r :: StandsAt(c, scan, s, h, r)
  }

  ghost predicate StandsAt(c: Client, scan: Scan, s: Blobs, h: Host, r: Replica) {
    var n := At(scan.run.c.pull, r);
    n == At(c.pull, r) ||
    (ScanEnd(c.pull, s, r) == Some(n) && Deltas(s, h, r, At(c.pull, r), n) <= Dots(scan.buffer))
  }

  lemma ScanReplicaWaits(c: Client, scan: Scan, s: Blobs, h: Host, r: Replica)
    requires Scanning(c, scan, s, h) && scan.run.ok
    ensures var after, m := ScanReplica(scan, s, h, r), ScanEnd(c.pull, s, r);
            after.run.ok == m.Some? && Unjudged(c, after.run.c, s, h) &&
            (m.Some? ==> Scanning(c, after, s, h) &&
                         Dots(after.buffer) == Dots(scan.buffer) + Deltas(s, h, r, At(c.pull, r), m.value)) &&
            (m.None? ==> forall d :: d in Dots(scan.buffer)
                                <==> d in Dots(after.buffer) && Below(after.run.c.pull, d))
  {
    assert StandsAt(c, scan, s, h, r);
    var n, after := At(scan.run.c.pull, r), ScanReplica(scan, s, h, r);
    if HeadPointer(r) !in s.down && HeadCount(s, r).Some? {
      var head := HeadCount(s, r).value;
      ScanGapWaits(c, scan, s, h, r, n, head);
      if n != At(c.pull, r) {
        GapEndAgain(s, r, At(c.pull, r), head);
      }
    }
    if after.run.ok {
      forall q
        ensures StandsAt(c, after, s, h, q)
      {
        assert StandsAt(c, scan, s, h, q);
      }
    }
  }

  /** The buffered dots a scan moves the frontier past are those already buffered and the waiting ones. */
  lemma {:induction false} ScanAllWaits(c: Client, scan: Scan, s: Blobs, h: Host, order: seq<Replica>)
    requires Scanning(c, scan, s, h) && scan.run.ok
    ensures var after := ScanAll(scan, s, h, order);
            Unjudged(c, after.run.c, s, h) && after.run.ok == Readable(c.pull, s, order) &&
            forall d :: d in Dots(after.buffer) && Below(after.run.c.pull, d)
                   <==> d in Dots(scan.buffer) || d in Waiting(c.pull, s, h, order)
    decreases order
  {
    if order != [] {
      ScanReplicaWaits(c, scan, s, h, order[0]);
      var mid := ScanReplica(scan, s, h, order[0]);
      assert Readable(c.pull, s, order) <==> mid.run.ok && Readable(c.pull, s, order[1..]) by {
        assert forall i :: 0 < i < |order| ==> order[i] == order[1..][i - 1];
      }
      if mid.run.ok {
        ScanAllWaits(c, mid, s, h, order[1..]);
      } else {
        assert ScanAll(mid, s, h, order[1..]) == mid;
      }
    }
  }

  /** What a verified pull that got past its drain and its listing has buffered, or forgets if it then fails. */
  lemma ScannedWaits(c: Client, s: Blobs, h: Host, g: Classifier, drain: seq<Dot>, order: seq<Replica>)
    requires DrainOrder(c, drain)
    requires HeadListing !in s.down && forall d :: d in drain ==> LogObject(d) !in s.down
    ensures var scan := Scanned(c, s, h, g, drain, order);
            Unjudged(c, scan.run.c, s, h) && scan.run.ok == Readable(c.pull, s, order) &&
            forall d :: d in Dots(scan.buffer) && Below(scan.run.c.pull, d) <==> d in Waiting(c.pull, s, h, order)
  {
    var run := Run(c, [], 0, true);
    DrainUnjudged(c, run, s, h, g, drain);
    var drained := Drain(run, s, h, g, drain);
    assert Dots([]) == {};
    assert forall r :: StandsAt(c, Scan(drained, []), s, h, r);
    ScanAllWaits(c, Scan(drained, []), s, h, order);
  }

  lemma {:induction false} WaitingOpens(f: Frontier, s: Blobs, h: Host, order: seq<Replica>)
    ensures forall d :: d in Waiting(f, s, h, order) ==>
              d in s.log && Opens(h, KDelta, s.log[d]) && !Below(f, d) && d.replica in order
    decreases order
  {
    if order != [] {
      WaitingOpens(f, s, h, order[1..]);
    }
  }

  /** No held dot is unreadable, and the heads can be listed. */
  predicate Starts(s: Blobs, drain: seq<Dot>) {
    HeadListing !in s.down && forall d :: d in drain ==> LogObject(d) !in s.down
  }

  /** A verified pull succeeds, or it fails already at a held dot or at the listing, or each delta it meets before the
      failing replica was in a bucket beforehand. */
  predicate Harmless(c: Client, s: Blobs, h: Host, drain: seq<Dot>, order: seq<Replica>) {
    Starts(s, drain) && !Readable(c.pull, s, order) ==>
      forall d :: d in Waiting(c.pull, s, h, order) ==> Placed(c, d)
  }

  /** When a verified pull succeeds, and when it leaves every dot accounted for: the harmless ones do, and no others.
      Blockers lie below the frontier unless a pull failed before, so then a waiting delta must have been settled. */
  lemma FailedPullVerified(c: Client, s: Blobs, h: Host, g: Classifier, drain: seq<Dot>, order: seq<Replica>)
    requires Booked(c) && DrainOrder(c, drain)
    ensures var after := PullVerified(c, s, h, g, drain, order);
            (after.ok <==> Starts(s, drain) && Readable(c.pull, s, order)) &&
            (Accounted(after.c) <==> Harmless(c, s, h, drain, order)) &&
            (Accounted(after.c) ==> Booked(after.c))
    ensures Tidy(c) ==> forall d :: d in Waiting(c.pull, s, h, order) ==> (Placed(c, d) <==> Settled(c, d))
  {
    var scan := Scanned(c, s, h, g, drain, order);
    ScannedKeeps(c, s, h, g, drain, order);
    JudgeOk(scan.run, h, g, scan.buffer);
    PullVerifiedKeeps(c, s, h, g, drain, order);
    WaitingOpens(c.pull, s, h, order);
    if Starts(s, drain) {
      ScannedWaits(c, s, h, g, drain, order);
    } else {
      NotStarted(c, s, h, g, drain, order);
    }
  }

  /** A pull that fails at a held dot or at the listing has buffered nothing. */
  lemma NotStarted(c: Client, s: Blobs, h: Host, g: Classifier, drain: seq<Dot>, order: seq<Replica>)
    requires DrainOrder(c, drain)
    requires HeadListing in s.down || exists d :: d in drain && LogObject(d) in s.down
    ensures var scan := Scanned(c, s, h, g, drain, order); !scan.run.ok && Dots(scan.buffer) == {}
  {
    DrainUnjudged(c, Run(c, [], 0, true), s, h, g, drain);
  }

  /** One object of replica "a" can be read; the head of replica "z" cannot. */
  const TORN: Blobs := Blobs(map[Dot("a", 0) := Sealed(KDelta, 0, None, Change(Delta(0)))], map["a" := "1", "z" := "1"],
                             None, {}, {HeadPointer("z")})

  /** A failed verified pull can move the frontier past a delta it never judged, and so claim to have it. */
  lemma FailedPullForgetsADelta(h: Host, g: Classifier)
    requires h.opens(TORN.log[Dot("a", 0)])
    ensures Invariant(Fresh("b"))
    ensures var run := PullVerified(Fresh("b"), TORN, h, g, [], ["a", "z"]);
            !run.ok && run.c.engine == {} && !Accounted(run.c) && Below(Subsumed(run.c), Dot("a", 0))
  {
    assert HeadCount(TORN, "a") == Some(1) by {
      assert Decimal.Value("1") == 10 * Decimal.Value("1"[..0]) + 1;
    }
    var d := Dot("a", 0);
    var c := Fresh("b");
    var scan := Scan(Run(c, [], 0, true), []);
    var first := ScanReplica(scan, TORN, h, "a");
    assert first == ScanGap(scan, TORN, h, "a", 0, 1);
    assert first == ScanGap(ScanOne(scan, h, d, TORN.log[d]), TORN, h, "a", 1, 1);
    assert first.run == Run(c.(pull := map["a" := 1]), [], 0, true);
    var second := ScanReplica(first, TORN, h, "z");
    assert ScanAll(scan, TORN, h, ["a", "z"]) == ScanAll(first, TORN, h, ["z"]) by {
      assert ["a", "z"][1..] == ["z"];
    }
    assert ScanAll(first, TORN, h, ["z"]) == second by {
      assert ["z"][1..] == [];
    }
    var after := PullVerified(c, TORN, h, g, [], ["a", "z"]).c;
    assert after == c.(pull := map["a" := 1]);
    assert Below(after.pull, d) && !Settled(after, d) && d !in Blockers(after);
    SubsumedIsGreatest(after, "a", 1);
  }

  lemma {:induction false} JudgeOk(run: Run, h: Host, g: Classifier, buffer: seq<Pending>)
    ensures Judge(run, h, g, buffer).ok == run.ok
    decreases buffer
  {
    if buffer != [] {
      JudgeOk(JudgeOne(run, h, g, buffer[0]), h, g, buffer[1..]);
    }
  }

  // ----- retry_stalled, the dropped dots, appending -----

  lemma RetryOneKeeps(run: Run, s: Blobs, h: Host, g: Classifier, d: Dot)
    requires Booked(run.c) && d in run.c.stalled
    ensures var after := RetryOne(run, s, h, g, d);
            Reads(run.c, after.c, s) && Booked(after.c) && (Tidy(run.c) ==> Tidy(after.c)) &&
            run.c.stalled.Keys - {d} <= after.c.stalled.Keys
  {
    var u, after := Unstall(run, d).c, RetryOne(run, s, h, g, d).c;
    RetryOneEnds(run, s, h, g, d);
    EndsReads(run.c, u, after, s, h, d);
    assert d in Blockers(run.c);
    EndsPutAway(run.c, u, after, s, h, d);
    PutAwayKeeps(run.c, after, d, run.c.pull, run.c.pull, {});
  }

  lemma {:induction false} RetryAllKeeps(run: Run, s: Blobs, h: Host, g: Classifier, order: seq<Dot>)
    requires Booked(run.c) && Distinct(order) && forall i :: 0 <= i < |order| ==> order[i] in run.c.stalled
    ensures var after := RetryAll(run, s, h, g, order);
            Reads(run.c, after.c, s) && Booked(after.c) && (Tidy(run.c) ==> Tidy(after.c))
    decreases order
  {
    if order != [] && run.ok {
      RetryOneKeeps(run, s, h, g, order[0]);
      var mid := RetryOne(run, s, h, g, order[0]);
      forall i | 0 <= i < |order[1..]|
        ensures order[1..][i] in mid.c.stalled
      {
        assert order[1..][i] == order[i + 1] && order[0] != order[i + 1];
      }
      RetryAllKeeps(mid, s, h, g, order[1..]);
    }
  }

  ghost predicate RetryOrder(c: Client, order: seq<Dot>) {
    Distinct(order) && forall i :: 0 <= i < |order| ==> order[i] in c.stalled
  }

  /** Retrying stalls keeps the invariant, even when it fails half way. */
  lemma RetryStalledKeeps(c: Client, s: Blobs, h: Host, g: Classifier, order: seq<Dot>)
    requires Booked(c) && RetryOrder(c, order)
    ensures var after := RetryStalled(c, s, h, g, order);
            Reads(c, after.c, s) && Booked(after.c) && (Tidy(c) ==> Invariant(after.c))
  {
    RetryAllKeeps(Run(c, [], 0, true), s, h, g, order);
  }

  lemma ReadmitKeeps(c: Client, s: Blobs, h: Host, admits: Envelope -> bool, d: Dot)
    requires Booked(c)
    ensures var after := Readmit(c, s, h, admits, d).c;
            Reads(c, after, s) && Booked(after) && Booked(Forget(c, d)) && Reads(c, Forget(c, d), s) &&
            (Tidy(c) ==> Invariant(after) && Invariant(Forget(c, d)))
  {
  }
}
