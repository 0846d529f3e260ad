/** Whole runs of the fleet: nothing appended is ever lost. And the two ways the guards were needed. */
module FleetRuns {
  import opened Wrappers
  import opened Counters
  import opened SyncModel
  import opened Buckets
  import opened Adoption
  import opened Fleet
  import Decimal

  ghost predicate Execution(worlds: seq<World>, steps: seq<Step>) {
    && |worlds| == |steps| + 1
    && worlds[0] == GENESIS
    && forall i :: 0 <= i < |steps| ==> Enabled(worlds[i], steps[i]) && worlds[i + 1] == Next(worlds[i], steps[i])
  }

  lemma {:induction false} EveryWorldSound(worlds: seq<World>, steps: seq<Step>, i: nat)
    requires Execution(worlds, steps) && i < |worlds|
    ensures Sound(worlds[i])
  {
    if i > 0 {
      EveryWorldSound(worlds, steps, i - 1);
      StepKeeps(worlds[i - 1], steps[i - 1]);
    }
  }

  predicate Extends(hist: map<Dot, Envelope>, hist': map<Dot, Envelope>) {
    forall d :: d in hist ==> d in hist' && hist'[d] == hist[d]
  }

  lemma WrittenExtends(w: World, c: Client, written: Written)
    requires Dot(c.replica, c.next) !in w.hist
    ensures Extends(w.hist, PutWritten(w, c, written).hist) && w.excused <= PutWritten(w, c, written).excused
  {
  }

  /** Steps that write no log object. */
  lemma OthersKeepHistory(w: World, step: Step)
    requires Enabled(w, step) && !step.ApplyEdit? && !step.PushCover? && !step.Plant?
    ensures Next(w, step).hist == w.hist && w.excused <= Next(w, step).excused
  {
  }

  lemma HistoryGrows(w: World, step: Step)
    requires Sound(w) && Enabled(w, step)
    ensures Extends(w.hist, Next(w, step).hist) && w.excused <= Next(w, step).excused
  {
    if step.ApplyEdit? {
      var c := w.clients[step.replica];
      assert ClientSound(w.hist, w.excused, c);
      WrittenExtends(w, c, Apply(c, w.s, step.h, step.edit));
    } else if step.PushCover? {
      var c := w.clients[step.replica];
      assert ClientSound(w.hist, w.excused, c);
      WrittenExtends(w, c, Append(c, w.s, step.h, KCover, step.body));
    } else if !step.Plant? {
      OthersKeepHistory(w, step);
    }
  }

  lemma {:induction false} GrowthChains(hists: seq<map<Dot, Envelope>>, i: nat, j: nat)
    requires i <= j < |hists|
    requires forall k :: 0 <= k < |hists| - 1 ==> Extends(hists[k], hists[k + 1])
    ensures Extends(hists[i], hists[j])
  {
    if i < j {
      GrowthChains(hists, i, j - 1);
      assert Extends(hists[j - 1], hists[j - 1 + 1]);
    }
  }

  lemma OneStepExtends(worlds: seq<World>, steps: seq<Step>, k: nat)
    requires Execution(worlds, steps) && k < |steps|
    ensures Extends(worlds[k].hist, worlds[k + 1].hist)
  {
    EveryWorldSound(worlds, steps, k);
    HistoryGrows(worlds[k], steps[k]);
  }

  lemma HistoryIsKept(worlds: seq<World>, steps: seq<Step>, i: nat, j: nat)
    requires Execution(worlds, steps) && i <= j < |worlds|
    ensures Extends(worlds[i].hist, worlds[j].hist)
  {
    var hists := seq(|worlds|, k requires 0 <= k < |worlds| => worlds[k].hist);
    forall k | 0 <= k < |hists| - 1
      ensures Extends(hists[k], hists[k + 1])
    {
      OneStepExtends(worlds, steps, k);
    }
    GrowthChains(hists, i, j);
  }

  /** The delta is in an object of the log, or in the state of the current snapshot. */
  predicate Kept(s: Blobs, d: Dot, delta: Delta) {
    || (d in s.log && IsChange(s.log[d]) && s.log[d].body.delta == delta)
    || (s.snapshot.Some? && s.snapshot.value.Sealed? && s.snapshot.value.body.Fold? &&
        delta in s.snapshot.value.body.state)
  }

  /** A delta in the history at any time is kept at every later time, unless its dot was dropped by a classifier. */
  lemma NoLoss(worlds: seq<World>, steps: seq<Step>, i: nat, j: nat, d: Dot)
    requires Execution(worlds, steps) && i <= j < |worlds|
    requires d in worlds[i].hist && IsChange(worlds[i].hist[d])
    ensures Kept(worlds[j].s, d, worlds[i].hist[d].body.delta) || d in worlds[j].excused
  {
    HistoryIsKept(worlds, steps, i, j);
    EveryWorldSound(worlds, steps, j);
    var w := worlds[j];
    if d !in w.s.log {
      assert Below(CurrentCoverage(w.s), d);
      assert Honest(w.hist, w.excused, w.s.snapshot.value);
      assert Resolved(w.hist, w.excused, w.s.snapshot.value.body.state, d);
    }
  }

  /** Steps that write no snapshot. */
  lemma OthersKeepCoverage(w: World, step: Step)
    requires Enabled(w, step) && !step.CompactNow? && !step.CompactIfDue? && !step.Deliver?
    ensures Next(w, step).s.snapshot == w.s.snapshot
  {
  }

  lemma NotExceeding(f: Frontier, g: Frontier)
    requires !Exceeds(f, g)
    ensures forall d :: Below(f, d) ==> Below(g, d)
  {
    forall d | Below(f, d)
      ensures Below(g, d)
    {
      assert d.replica in f;
    }
  }

  /** What the snapshot covers never shrinks along a run. */
  lemma CoverageGrows(w: World, step: Step)
    requires Sound(w) && Enabled(w, step)
    ensures forall d :: Below(CurrentCoverage(w.s), d) ==> Below(CurrentCoverage(Next(w, step).s), d)
  {
    if step.CompactNow? {
      CompactionGrows(w, step.replica, step.h, Compact(w.clients[step.replica], w.s, step.h).s);
    } else if step.CompactIfDue? {
      DueCompactionGrows(w, step.replica, step.h, step.due);
    } else if step.Deliver? {
      NotExceeding(CurrentCoverage(w.s), step.env.body.covered);
    } else {
      OthersKeepCoverage(w, step);
    }
  }

  lemma DueCompactionGrows(w: World, r: Replica, h: Host, due: (nat, bool) -> bool)
    requires Sound(w) && r in w.clients && MayOverwrite(w.clients[r], w.s)
    ensures forall d :: Below(CurrentCoverage(w.s), d) ==>
              Below(CurrentCoverage(MaybeCompact(w.clients[r], w.s, h, due).s), d)
  {
    CompactionGrows(w, r, h, MaybeCompact(w.clients[r], w.s, h, due).s);
  }

  lemma CompactionGrows(w: World, r: Replica, h: Host, s': Blobs)
    requires Sound(w) && r in w.clients && MayOverwrite(w.clients[r], w.s)
    requires s' == w.s || s' == Compact(w.clients[r], w.s, h).s
    ensures forall d :: Below(CurrentCoverage(w.s), d) ==> Below(CurrentCoverage(s'), d)
  {
    CompactWrites(w.clients[r], w.s, h);
    if s' != w.s {
      NotExceeding(CurrentCoverage(w.s), Subsumed(w.clients[r]));
    }
  }

  // ----- without drops there is nothing to excuse -----

  ghost predicate NeverDrops(g: Classifier) {
    forall trail, d, env :: g(trail, d, env) != Drop
  }

  ghost predicate DropFree(step: Step) {
    match step
    case PullChecked(_, _, g, _, _) => NeverDrops(g)
    case Retry(_, _, g, _) => NeverDrops(g)
    case _ => true
  }

  lemma {:induction false} DrainDropsNothing(run: Run, s: Blobs, h: Host, g: Classifier, order: seq<Dot>)
    requires NeverDrops(g)
    ensures Drain(run, s, h, g, order).c.suppressed == run.c.suppressed
    decreases order
  {
    if order != [] && run.ok {
      DrainDropsNothing(DrainOne(run, s, h, g, order[0]), s, h, g, order[1..]);
    }
  }

  lemma {:induction false} RetryDropsNothing(run: Run, s: Blobs, h: Host, g: Classifier, order: seq<Dot>)
    requires NeverDrops(g)
    ensures RetryAll(run, s, h, g, order).c.suppressed == run.c.suppressed
    decreases order
  {
    if order != [] && run.ok {
      RetryDropsNothing(RetryOne(run, s, h, g, order[0]), s, h, g, order[1..]);
    }
  }

  lemma {:induction false} ScanGapDropsNothing(scan: Scan, s: Blobs, h: Host, r: Replica, n: nat, head: nat)
    ensures ScanGap(scan, s, h, r, n, head).run.c.suppressed == scan.run.c.suppressed
    decreases head - n
  {
    if n < head && ReadLog(s, Dot(r, n)).Found? {
      ScanGapDropsNothing(ScanOne(scan, h, Dot(r, n), s.log[Dot(r, n)]), s, h, r, n + 1, head);
    }
  }

  lemma {:induction false} ScanDropsNothing(scan: Scan, s: Blobs, h: Host, order: seq<Replica>)
    ensures ScanAll(scan, s, h, order).run.c.suppressed == scan.run.c.suppressed
    decreases order
  {
    if order != [] && scan.run.ok {
      var r := order[0];
      if HeadCount(s, r).Some? {
        ScanGapDropsNothing(scan, s, h, r, At(scan.run.c.pull, r), HeadCount(s, r).value);
      }
      ScanDropsNothing(ScanReplica(scan, s, h, r), s, h, order[1..]);
    }
  }

  lemma {:induction false} JudgeDropsNothing(run: Run, h: Host, g: Classifier, buffer: seq<Pending>)
    requires NeverDrops(g)
    ensures Judge(run, h, g, buffer).c.suppressed == run.c.suppressed
    decreases buffer
  {
    if buffer != [] {
      JudgeDropsNothing(JudgeOne(run, h, g, buffer[0]), h, g, buffer[1..]);
    }
  }

  lemma {:induction false} PullDropsNothing(run: Run, s: Blobs, h: Host, order: seq<Replica>)
    ensures PullAll(run, s, h, order).c.suppressed == run.c.suppressed
    decreases order
  {
    if order != [] && run.ok {
      var r := order[0];
      if HeadCount(s, r).Some? {
        PullGapDropsNothing(run, s, h, r, At(run.c.pull, r), HeadCount(s, r).value);
      }
      PullDropsNothing(PullReplica(run, s, h, r), s, h, order[1..]);
    }
  }

  lemma {:induction false} PullGapDropsNothing(run: Run, s: Blobs, h: Host, r: Replica, n: nat, head: nat)
    ensures PullGap(run, s, h, r, n, head).c.suppressed == run.c.suppressed
    decreases head - n
  {
    if n < head && ReadLog(s, Dot(r, n)).Found? {
      PullGapDropsNothing(TakePlain(run, h, Dot(r, n), s.log[Dot(r, n)]), s, h, r, n + 1, head);
    }
  }

  lemma PullVerifiedDropsNothing(c: Client, s: Blobs, h: Host, g: Classifier, drain: seq<Dot>, order: seq<Replica>)
    requires NeverDrops(g)
    ensures PullVerified(c, s, h, g, drain, order).c.suppressed == c.suppressed
  {
    var run := Run(c, [], 0, true);
    DrainDropsNothing(run, s, h, g, drain);
    ScanDropsNothing(Scan(Drain(run, s, h, g, drain), []), s, h, order);
    var scan := Scanned(c, s, h, g, drain, order);
    JudgeDropsNothing(scan.run, h, g, scan.buffer);
  }

  /** Calls whose suppressed dots are those of the client before. */
  lemma PullsDropNothing(c: Client, w: World, step: Step)
    requires Enabled(w, step) && DropFree(step) && (step.PullPlain? || step.PullChecked? || step.Retry?)
    requires c == w.clients[step.replica]
    ensures Next(w, step).excused == w.excused + c.suppressed
  {
    match step
    case PullPlain(r, h, order) => PullDropsNothing(Run(c, [], 0, true), w.s, h, order);
    case PullChecked(r, h, g, drain, order) => PullVerifiedDropsNothing(c, w.s, h, g, drain, order);
    case Retry(r, h, g, stalls) => RetryDropsNothing(Run(c, [], 0, true), w.s, h, g, stalls);
  }

  lemma CompactDropsNothing(w: World, r: Replica, h: Host)
    requires Sound(w) && Enabled(w, CompactNow(r, h))
    ensures Next(w, CompactNow(r, h)).excused == w.excused + w.clients[r].suppressed
  {
    CompactWrites(w.clients[r], w.s, h);
  }

  lemma MaybeCompactDropsNothing(w: World, r: Replica, h: Host, due: (nat, bool) -> bool)
    requires Sound(w) && Enabled(w, CompactIfDue(r, h, due))
    ensures Next(w, CompactIfDue(r, h, due)).excused == w.excused + w.clients[r].suppressed
  {
    MaybeCompactTouches(w.clients[r], w.s, h, due);
  }

  lemma MaybeCompactTouches(c: Client, s: Blobs, h: Host, due: (nat, bool) -> bool)
    ensures var after := MaybeCompact(c, s, h, due).c; after == c.(logLen := after.logLen)
  {
    CompactTouches(c, s, h);
  }

  lemma CompactTouches(c: Client, s: Blobs, h: Host)
    ensures var after := Compact(c, s, h).c; after == c.(logLen := after.logLen)
  {
  }

  lemma AppendDropsNothing(c: Client, s: Blobs, h: Host, kind: Kind, body: Plaintext)
    ensures Append(c, s, h, kind, body).c.suppressed == c.suppressed
  {
  }

  lemma ReadmitDropsNothing(c: Client, s: Blobs, h: Host, admits: Envelope -> bool, d: Dot)
    ensures Readmit(c, s, h, admits, d).c.suppressed == c.suppressed && Forget(c, d).suppressed == c.suppressed
  {
  }

  lemma EditDropsNothing(c: Client, s: Blobs, h: Host, edit: Option<Delta>)
    ensures Apply(c, s, h, edit).c.suppressed == c.suppressed
  {
    if edit.Some? { AppendDropsNothing(c.(engine := c.engine + {edit.value}), s, h, KDelta, Change(edit.value)); }
  }

  lemma AdoptionDropsNothing(w: World, step: Step)
    requires Sound(w) && Enabled(w, step) && step.AdoptSnapshot?
    ensures Next(w, step).excused == w.excused + w.clients[step.replica].suppressed
  {
    assert ClientSound(w.hist, w.excused, w.clients[step.replica]);
    AdoptKeeps(w.clients[step.replica], w.s, step.h, step.trusts, step.order, step.rule);
  }

  lemma NobodyDropped(w: World, r: Replica)
    requires Sound(w) && r in w.clients && w.excused == {}
    ensures w.clients[r].suppressed == {}
  {
    assert ClientSound(w.hist, w.excused, w.clients[r]);
  }

  /** A client's call that drops nothing. */
  lemma CallSuppressesNothing(w: World, step: Step)
    requires Sound(w) && Enabled(w, step) && DropFree(step) && !Quiet(step)
    ensures Next(w, step).excused == w.excused + w.clients[step.replica].suppressed
  {
    var c := w.clients[step.replica];
    match step
    case AdoptSnapshot(_, _, _, _, _) => AdoptionDropsNothing(w, step);
    case CompactNow(r, h) => CompactDropsNothing(w, r, h);
    case CompactIfDue(r, h, due) => MaybeCompactDropsNothing(w, r, h, due);
    case ApplyEdit(_, h, edit) => EditDropsNothing(c, w.s, h, edit);
    case PushCover(_, h, body) => AppendDropsNothing(c, w.s, h, KCover, body);
    case ReadmitDot(_, h, admits, d) => ReadmitDropsNothing(c, w.s, h, admits, d);
    case ForgetDot(_, d) => ReadmitDropsNothing(c, w.s, ANYONE, env => false, d);
    case PullPlain(_, _, _) => PullsDropNothing(c, w, step);
    case PullChecked(_, _, _, _, _) => PullsDropNothing(c, w, step);
    case Retry(_, _, _, _) => PullsDropNothing(c, w, step);
  }

  lemma StepExcusesNothing(w: World, step: Step)
    requires Sound(w) && Enabled(w, step) && DropFree(step) && w.excused == {}
    ensures Next(w, step).excused == {}
  {
    if !Quiet(step) {
      NobodyDropped(w, step.replica);
      CallSuppressesNothing(w, step);
    }
  }

  lemma {:induction false} NothingExcused(worlds: seq<World>, steps: seq<Step>, i: nat)
    requires Execution(worlds, steps) && i < |worlds|
    requires forall k :: 0 <= k < |steps| ==> DropFree(steps[k])
    ensures worlds[i].excused == {}
  {
    if i > 0 {
      NothingExcused(worlds, steps, i - 1);
      EveryWorldSound(worlds, steps, i - 1);
      StepExcusesNothing(worlds[i - 1], steps[i - 1]);
    }
  }

  /** When classifiers only accept, hold and reject, every delta ever appended is kept at every later time. */
  lemma NoLossWithoutDrops(worlds: seq<World>, steps: seq<Step>, i: nat, j: nat, d: Dot)
    requires Execution(worlds, steps) && i <= j < |worlds|
    requires forall k :: 0 <= k < |steps| ==> DropFree(steps[k])
    requires d in worlds[i].hist && IsChange(worlds[i].hist[d])
    ensures Kept(worlds[j].s, d, worlds[i].hist[d].body.delta)
  {
    NoLoss(worlds, steps, i, j, d);
    NothingExcused(worlds, steps, j);
  }

  // ----- why the guards are there -----

  /** A client that refused the current snapshot and compacts over it keeps the world sound exactly when its own
      coverage reaches every reclaimed dot. */
  lemma OverwritingARefusedSnapshot(w: World, r: Replica, h: Host)
    requires Sound(w) && r in w.clients && w.s.snapshot.Some?
    requires w.clients[r].rejectedEtag == Some(Etag(w.s.snapshot.value))
    requires h.seals && SnapshotPointer !in w.s.down
    ensures var written := Compact(w.clients[r], w.s, h);
            Sound(Put(w.(s := written.s), written.c)) <==>
              forall d :: d in w.hist && d !in w.s.log ==> Below(Subsumed(w.clients[r]), d)
  {
    var c := w.clients[r];
    var written := Compact(c, w.s, h);
    var w' := Put(w.(s := written.s), written.c);
    assert ClientSound(w.hist, w.excused, c);
    SnapshotsAreHonest(w.hist, w.excused, c);
    LogLenIsFree(w.hist, w.excused, c, written.c.logLen);
    assert written.s == w.s.(snapshot := Some(SnapshotOf(c)));
    assert CurrentCoverage(written.s) == Subsumed(c);
    assert w'.excused == w.excused;
    if forall d :: d in w.hist && d !in w.s.log ==> Below(Subsumed(c), d) {
      assert Sound(w.(s := written.s));
      PutKeeps(w.(s := written.s), written.c);
    }
  }

  // ----- some runs -----

  ghost predicate Reachable(w: World) {
    exists worlds, steps :: Execution(worlds, steps) && worlds[|steps|] == w
  }

  lemma ReachableIsSound(w: World)
    requires Reachable(w)
    ensures Sound(w)
  {
    var worlds, steps :| Execution(worlds, steps) && worlds[|steps|] == w;
    EveryWorldSound(worlds, steps, |steps|);
  }

  lemma StartIsReachable()
    ensures Reachable(GENESIS)
  {
    var worlds: seq<World>, steps: seq<Step> := [GENESIS], [];
    assert Execution(worlds, steps) && worlds[|steps|] == GENESIS;
  }

  lemma OneStepOn(w: World, step: Step)
    requires Reachable(w) && Enabled(w, step)
    ensures Reachable(Next(w, step))
  {
    var worlds, steps :| Execution(worlds, steps) && worlds[|steps|] == w;
    var worlds', steps' := worlds + [Next(w, step)], steps + [step];
    forall i | 0 <= i < |steps'|
      ensures Enabled(worlds'[i], steps'[i]) && worlds'[i + 1] == Next(worlds'[i], steps'[i])
    {
      if i < |steps| { assert worlds'[i] == worlds[i] && worlds'[i + 1] == worlds[i + 1] && steps'[i] == steps[i]; }
    }
    assert Execution(worlds', steps') && worlds'[|steps'|] == Next(w, step);
  }

  /** Replica "a" after its first edit. */
  const AUTHOR: Client := Client("a", 1, Some(FIRST), map["a" := 1], {}, map[], {}, 0, 0, 0, None, {Delta(0)},
                                 {Dot("a", 0)}, {}, {}, {})

  const ONE_EDIT: Blobs := Blobs(map[Dot("a", 0) := FIRST], map["a" := "1"], None, {}, {})

  const ONE_SNAPSHOT: Blobs :=
    ONE_EDIT.(snapshot := Some(Sealed(KSnapshot, 1, Some(FIRST), Fold(map["a" := 1], {Delta(0)}))))

  /** Replica "a" made an edit and compacted. */
  const COMPACTED: World := World(ONE_SNAPSHOT, map["a" := AUTHOR.(logLen := 1)], ONE_SNAPSHOT.log, {}, {})

  lemma EditedIsReachable()
    ensures Reachable(World(ONE_EDIT, map["a" := AUTHOR], ONE_EDIT.log, {}, {}))
  {
    StartIsReachable();
    OneStepOn(GENESIS, Open("a"));
    var w := Next(GENESIS, Open("a"));
    OneStepOn(w, ApplyEdit("a", ANYONE, Some(Delta(0))));
    var written := Apply(Fresh("a"), w.s, ANYONE, Some(Delta(0)));
    assert Decimal.Print(1) == "1";
    assert written == Written(AUTHOR, ONE_EDIT, true);
    assert Next(w, ApplyEdit("a", ANYONE, Some(Delta(0)))) == World(ONE_EDIT, map["a" := AUTHOR], ONE_EDIT.log, {}, {});
  }

  lemma CompactedIsReachable()
    ensures Reachable(COMPACTED)
  {
    EditedIsReachable();
    var w := World(ONE_EDIT, map["a" := AUTHOR], ONE_EDIT.log, {}, {});
    OneStepOn(w, CompactNow("a", ANYONE));
    SubsumedIsGreatest(AUTHOR, "a", 1);
    assert Subsumed(AUTHOR) == map["a" := 1];
    assert Compact(AUTHOR, ONE_EDIT, ANYONE) == Written(AUTHOR.(logLen := 1), ONE_SNAPSHOT, true);
    assert Next(w, CompactNow("a", ANYONE)) == COMPACTED;
  }

  /** Then it made a second edit and went away. */
  const SHELVED: World := World(SHELF, map[], SHELF.log, {}, {})

  lemma ShelvedIsReachable()
    ensures Reachable(SHELVED)
  {
    CompactedIsReachable();
    var edit := ApplyEdit("a", ANYONE, Some(Delta(1)));
    OneStepOn(COMPACTED, edit);
    var w := Next(COMPACTED, edit);
    assert Decimal.Print(2) == "2";
    assert Apply(AUTHOR.(logLen := 1), ONE_SNAPSHOT, ANYONE, Some(Delta(1))).s == SHELF;
    assert w.s == SHELF && w.hist == SHELF.log && w.excused == {} && w.clients.Keys == {"a"};
    OneStepOn(w, Close("a"));
    assert Next(w, Close("a")) == SHELVED;
  }

  /** The world of `Adoption.CodedPurgeForgesCoverage`: one client holding a dot of another replica. */
  const HELD: World := World(SHELF, map["b" := HOLDER], SHELF.log, {}, {})

  /** Takes the first delta of a replica and holds the others. */
  const CAUTIOUS: Classifier := (trail: Trail, d: Dot, env: Envelope) => if d.counter == 0 then Accept else Hold

  lemma HolderPulls()
    ensures PullVerified(Fresh("b"), SHELF, ANYONE, CAUTIOUS, [], ["a"]).c == HOLDER
    ensures Harmless(Fresh("b"), SHELF, ANYONE, [], ["a"])
  {
    HolderIsSound();
    var c := Fresh("b");
    var scan := Scan(Run(c, [], 0, true), []);
    var first, second := Pending(Dot("a", 0), FIRST), Pending(Dot("a", 1), SECOND);
    var scanned := Scan(Run(c.(pull := map["a" := 2]), [], 0, true), [first, second]);
    assert ScanGap(scan, SHELF, ANYONE, "a", 0, 2) == scanned by {
      assert ScanOne(scan, ANYONE, first.dot, FIRST) == scan.(buffer := [first]);
      assert ScanOne(scan.(buffer := [first]), ANYONE, second.dot, SECOND) == scan.(buffer := [first, second]);
      assert ScanGap(scan.(buffer := [first, second]), SHELF, ANYONE, "a", 2, 2) == scanned;
      assert ScanGap(scan.(buffer := [first]), SHELF, ANYONE, "a", 1, 2) == scanned;
    }
    assert ScanAll(scan, SHELF, ANYONE, ["a"]) == ScanAll(scanned, SHELF, ANYONE, []) by {
      assert ["a"][1..] == [];
    }
    assert Scanned(c, SHELF, ANYONE, CAUTIOUS, [], ["a"]) == scanned;
    var one := JudgeOne(scanned.run, ANYONE, CAUTIOUS, first);
    var two := JudgeOne(one, ANYONE, CAUTIOUS, second);
    assert Judge(scanned.run, ANYONE, CAUTIOUS, [first, second]) == two by {
      assert [first, second][1..] == [second] && [second][1..] == [];
      assert Judge(one, ANYONE, CAUTIOUS, [second]) == two;
    }
    assert two.c == HOLDER;
    FailedPullVerified(c, SHELF, ANYONE, CAUTIOUS, [], ["a"]);
  }

  const OPENED: World := World(SHELF, map["b" := Fresh("b")], SHELF.log, {}, {})

  lemma OpenedIsReachable()
    ensures Reachable(OPENED)
  {
    ShelvedIsReachable();
    OneStepOn(SHELVED, Open("b"));
  }

  lemma HeldIsReachable()
    ensures Reachable(HELD)
  {
    OpenedIsReachable();
    HolderPulls();
    var pull := PullChecked("b", ANYONE, CAUTIOUS, [], ["a"]);
    OneStepOn(OPENED, pull);
    PutsHolder();
  }

  lemma PutsHolder()
    ensures Put(OPENED, HOLDER) == HELD
  {
    assert HOLDER.suppressed == {};
  }

  /** From a world some run reaches, one adoption as coded, one compaction and one lawful sweep lose a delta for good. */
  lemma CodedPurgeLosesData()
    ensures Reachable(HELD) && Sound(HELD)
    ensures var adopted := Adopt(HOLDER, SHELF, ANYONE, env => true, ["a"], Coded).c;
            var compacted := Compact(adopted, SHELF, ANYONE);
            var swept := compacted.s.(log := compacted.s.log - {Dot("a", 1)});
            Below(CurrentCoverage(compacted.s), Dot("a", 1)) && !Kept(swept, Dot("a", 1), Delta(1)) &&
            Kept(SHELF, Dot("a", 1), Delta(1))
  {
    HeldIsReachable();
    ReachableIsSound(HELD);
    CodedPurgeForgesCoverage();
    HolderAdopts(Coded);
    HolderIsSound();
    var adopted := Adopt(HOLDER, SHELF, ANYONE, env => true, ["a"], Coded).c;
    assert adopted.engine == {Delta(0)} && adopted.rejectedEtag == None;
    SubsumedIsGreatest(adopted, "a", 1);
    SubsumedIsGreatest(adopted, "a", 2);
    assert CoveredBySnapshot(adopted, SHELF, ANYONE) == Published(map["a" := 1]);
    assert !Exceeds(map["a" := 1], Subsumed(adopted));
  }

  // ----- what a compaction reports -----

  /** `maybe_compact` reports a compaction it declined exactly when the current snapshot leads in some replica. */
  lemma ReportedCompaction(c: Client, s: Blobs, h: Host, due: (nat, bool) -> bool)
    requires MaybeCompact(c, s, h, due).reported
    ensures var after := MaybeCompact(c, s, h, due);
            var declined := CoveredBySnapshot(c, s, h).Published? && Exceeds(CoveredBySnapshot(c, s, h).covered, Subsumed(c));
            after.s == if declined then s else s.(snapshot := Some(SnapshotOf(c)))
  {
  }

  /** Replica "b" after an edit of its own. */
  const NEIGHBOUR: Client := Client("b", 1, Some(SECOND.(counter := 0, prev := None)), map["b" := 1], {}, map[], {}, 0, 0,
                                    0, None, {Delta(1)}, {Dot("b", 0)}, {}, {}, {})

  /** The store then: the snapshot of "a" covers nothing of "b". */
  const TWO_AUTHORS: Blobs :=
    ONE_SNAPSHOT.(log := map[Dot("a", 0) := FIRST, Dot("b", 0) := SECOND.(counter := 0, prev := None)],
                  heads := map["a" := "1", "b" := "1"])

  const BESIDE: World :=
    World(TWO_AUTHORS, map["a" := AUTHOR.(logLen := 1), "b" := NEIGHBOUR], TWO_AUTHORS.log, {}, {})

  const JOINED: World :=
    World(ONE_SNAPSHOT, map["a" := AUTHOR.(logLen := 1), "b" := Fresh("b")], ONE_SNAPSHOT.log, {}, {})

  lemma JoinedIsReachable()
    ensures Reachable(JOINED)
  {
    CompactedIsReachable();
    OneStepOn(COMPACTED, Open("b"));
  }

  lemma NeighbourEdits()
    ensures Apply(Fresh("b"), ONE_SNAPSHOT, ANYONE, Some(Delta(1))) == Written(NEIGHBOUR, TWO_AUTHORS, true)
  {
    assert Decimal.Print(1) == "1";
  }

  lemma BesideIsReachable()
    ensures Reachable(BESIDE)
  {
    JoinedIsReachable();
    var edit := ApplyEdit("b", ANYONE, Some(Delta(1)));
    OneStepOn(JOINED, edit);
    NeighbourEdits();
    assert PutWritten(JOINED, Fresh("b"), Written(NEIGHBOUR, TWO_AUTHORS, true)) == BESIDE;
  }

  /** Two clients whose coverages are incomparable: in a world some run reaches, the second reports a compaction and
      writes nothing. */
  lemma ReportWithoutWrite()
    ensures Reachable(BESIDE) && Invariant(NEIGHBOUR)
    ensures var after := MaybeCompact(NEIGHBOUR, TWO_AUTHORS, ANYONE, (n, present) => true);
            after.ok && after.reported && after.s == TWO_AUTHORS
  {
    BesideIsReachable();
    SubsumedIsGreatest(NEIGHBOUR, "b", 1);
    assert Subsumed(NEIGHBOUR)["b"] > At(map["a" := 1], "b");
    assert "a" in map["a" := 1] && At(Subsumed(NEIGHBOUR), "a") == 0;
    assert CoveredBySnapshot(NEIGHBOUR, TWO_AUTHORS, ANYONE) == Published(map["a" := 1]);
  }
}
