/**
  Runs end in agreement. In a run without drops, in which no edit is lost before it is stored, every client that has
  no blocked dot, and every fresh one, bootstraps to exactly the deltas ever appended.
*/
module Recovery {
  import opened Wrappers
  import opened Counters
  import opened SyncModel
  import opened Buckets
  import opened Adoption
  import opened Fleet
  import opened FleetRuns
  import C = Convergence

  // ----- nobody knows a delta that was never appended -----

  ghost predicate Grounded(w: World) {
    && (forall r :: r in w.clients ==> w.clients[r].engine <= DeltasOf(w.hist))
    && (w.s.snapshot.Some? ==> GroundedIn(w.hist, w.s.snapshot.value))
    && (forall env :: env in w.sealed ==> GroundedIn(w.hist, env))
  }

  ghost predicate GroundedIn(hist: map<Dot, Envelope>, env: Envelope) {
    env.Sealed? && env.body.Fold? ==> env.body.state <= DeltasOf(hist)
  }

  /** An edit that fails before its entry is stored: the engine has it, the log never will. */
  predicate LosesEdit(w: World, step: Step) {
    step.ApplyEdit? && step.replica in w.clients && step.edit.Some? &&
    (!step.h.seals || LogObject(Dot(step.replica, w.clients[step.replica].next)) in w.s.down)
  }

  lemma DeltasGrow(hist: map<Dot, Envelope>, hist': map<Dot, Envelope>)
    requires Extends(hist, hist')
    ensures DeltasOf(hist) <= DeltasOf(hist')
  {
    forall delta | delta in DeltasOf(hist)
      ensures delta in DeltasOf(hist')
    {
      var d :| d in hist && IsChange(hist[d]) && hist[d].body.delta == delta;
      assert d in hist' && hist'[d] == hist[d];
    }
  }

  /** Only the acting client's engine, and perhaps the snapshot, are new after a step. */
  lemma GroundedAfter(w: World, w': World, c: Client)
    requires Grounded(w) && Extends(w.hist, w'.hist)
    requires forall r :: r in w'.clients ==> w'.clients[r] == c || (r in w.clients && w'.clients[r] == w.clients[r])
    requires c.engine <= DeltasOf(w'.hist)
    requires w'.s.snapshot.Some? ==>
               w'.s.snapshot == w.s.snapshot || w'.s.snapshot.value in w.sealed || GroundedIn(w'.hist, w'.s.snapshot.value)
    requires forall env :: env in w'.sealed ==> env in w.sealed || GroundedIn(w'.hist, env)
    ensures Grounded(w')
  {
    DeltasGrow(w.hist, w'.hist);
  }

  lemma ReaderIsGrounded(w: World, c: Client, c': Client)
    requires Sound(w) && Grounded(w) && c.replica in w.clients && w.clients[c.replica] == c && Reads(c, c', w.s)
    ensures Grounded(Put(w, c'))
  {
    DeltasGrow(w.s.log, w.hist);
    GroundedAfter(w, Put(w, c'), c');
  }

  lemma ReadStepIsGrounded(w: World, step: Step)
    requires Sound(w) && Grounded(w) && Enabled(w, step) && OnlyReads(step)
    ensures Grounded(Next(w, step))
  {
    assert ClientSound(w.hist, w.excused, w.clients[step.replica]);
    var c' := ReaderAfter(w, step);
    ReaderIsGrounded(w, w.clients[step.replica], c');
  }

  lemma AdopterIsGrounded(w: World, step: Step)
    requires Sound(w) && Grounded(w) && Enabled(w, step) && step.AdoptSnapshot?
    ensures Grounded(Next(w, step))
  {
    var c := w.clients[step.replica];
    assert ClientSound(w.hist, w.excused, c);
    AdoptKeeps(c, w.s, step.h, step.trusts, step.order, step.rule);
    GroundedAfter(w, Next(w, step), Adopt(c, w.s, step.h, step.trusts, step.order, step.rule).c);
  }

  /** A compaction writes nothing, or this client's own state. */
  lemma CompactorIsGrounded(w: World, r: Replica, s': Blobs, c': Client)
    requires Sound(w) && Grounded(w) && r in w.clients && c' == w.clients[r].(logLen := c'.logLen)
    requires s' == w.s || s' == w.s.(snapshot := Some(SnapshotOf(w.clients[r])))
    ensures Grounded(Put(w.(s := s'), c'))
  {
    assert ClientSound(w.hist, w.excused, w.clients[r]);
    GroundedAfter(w, Put(w.(s := s'), c'), c');
  }

  lemma CompactStepIsGrounded(w: World, step: Step)
    requires Sound(w) && Grounded(w) && Enabled(w, step) && (step.CompactNow? || step.CompactIfDue?)
    ensures Grounded(Next(w, step))
  {
    var c := w.clients[step.replica];
    match step
    case CompactNow(r, h) =>
      CompactWrites(c, w.s, h);
      CompactorIsGrounded(w, r, Compact(c, w.s, h).s, Compact(c, w.s, h).c);
    case CompactIfDue(r, h, due) =>
      MaybeCompactWrites(c, w.s, h, due);
      CompactorIsGrounded(w, r, MaybeCompact(c, w.s, h, due).s, MaybeCompact(c, w.s, h, due).c);
  }

  /** An append that leaves the engine within what is then recorded. */
  lemma WriterIsGrounded(w: World, r: Replica, written: Written)
    requires Sound(w) && Grounded(w) && r in w.clients && Extends(w.hist, PutWritten(w, w.clients[r], written).hist)
    requires written.s.snapshot == w.s.snapshot
    requires written.c.engine <= DeltasOf(PutWritten(w, w.clients[r], written).hist)
    ensures Grounded(PutWritten(w, w.clients[r], written))
  {
    GroundedAfter(w, PutWritten(w, w.clients[r], written), written.c);
  }

  lemma CoverStepIsGrounded(w: World, r: Replica, h: Host, body: Plaintext)
    requires Sound(w) && Grounded(w) && Enabled(w, PushCover(r, h, body))
    ensures Grounded(Next(w, PushCover(r, h, body)))
  {
    var written := Append(w.clients[r], w.s, h, KCover, body);
    HistoryGrows(w, PushCover(r, h, body));
    DeltasGrow(w.hist, PutWritten(w, w.clients[r], written).hist);
    assert written.c.engine == w.clients[r].engine;
    WriterIsGrounded(w, r, written);
  }

  lemma EditStepIsGrounded(w: World, r: Replica, h: Host, edit: Option<Delta>)
    requires Sound(w) && Grounded(w) && Enabled(w, ApplyEdit(r, h, edit)) && !LosesEdit(w, ApplyEdit(r, h, edit))
    ensures Grounded(Next(w, ApplyEdit(r, h, edit)))
  {
    HistoryGrows(w, ApplyEdit(r, h, edit));
    match edit
    case None =>
      DeltasGrow(w.hist, Next(w, ApplyEdit(r, h, edit)).hist);
      WriterIsGrounded(w, r, Apply(w.clients[r], w.s, h, edit));
    case Some(delta) =>
      EditIsRecorded(w, r, h, delta);
      WriterIsGrounded(w, r, Apply(w.clients[r], w.s, h, edit));
  }

  /** An edit whose entry is stored puts its delta into the history. */
  lemma EditIsRecorded(w: World, r: Replica, h: Host, delta: Delta)
    requires Sound(w) && Grounded(w) && r in w.clients && !LosesEdit(w, ApplyEdit(r, h, Some(delta)))
    ensures var written := Apply(w.clients[r], w.s, h, Some(delta));
            written.c.engine <= DeltasOf(PutWritten(w, w.clients[r], written).hist) &&
            written.s.snapshot == w.s.snapshot
  {
    var c := w.clients[r];
    assert ClientSound(w.hist, w.excused, c) && c.replica == r;
    var dot, env := Dot(r, c.next), Sealed(KDelta, c.next, c.prev, Change(delta));
    assert dot !in w.hist && dot !in w.s.log;
    EditWrites(w, c, h, delta);
    OneMoreRecorded(w.hist, dot, env);
  }

  lemma EditWrites(w: World, c: Client, h: Host, delta: Delta)
    requires h.seals && LogObject(Dot(c.replica, c.next)) !in w.s.down && Dot(c.replica, c.next) !in w.s.log
    ensures var written, env := Apply(c, w.s, h, Some(delta)), Sealed(KDelta, c.next, c.prev, Change(delta));
            written.c.engine == c.engine + {delta} && written.s.snapshot == w.s.snapshot &&
            PutWritten(w, c, written).hist == w.hist[Dot(c.replica, c.next) := env]
  {
  }

  lemma OneMoreRecorded(hist: map<Dot, Envelope>, dot: Dot, env: Envelope)
    requires dot !in hist && IsChange(env)
    ensures DeltasOf(hist[dot := env]) >= DeltasOf(hist) + {env.body.delta}
  {
    DeltasGrow(hist, hist[dot := env]);
    assert dot in hist[dot := env];
  }

  lemma SealIsGrounded(w: World, r: Replica)
    requires Grounded(w) && r in w.clients
    ensures Grounded(w.(sealed := w.sealed + {SnapshotOf(w.clients[r])}))
  {
  }

  lemma PlantIsGrounded(w: World, d: Dot, env: Envelope)
    requires Grounded(w) && Enabled(w, Plant(d, env))
    ensures Grounded(Next(w, Plant(d, env)))
  {
    DeltasGrow(w.hist, w.hist[d := env]);
  }

  lemma QuietStepIsGrounded(w: World, step: Step)
    requires Grounded(w) && Enabled(w, step) && Quiet(step)
    ensures Grounded(Next(w, step))
  {
    if step.Seal? {
      SealIsGrounded(w, step.replica);
    } else if step.Plant? {
      PlantIsGrounded(w, step.d, step.env);
    }
  }

  lemma WriteStepIsGrounded(w: World, step: Step)
    requires Sound(w) && Grounded(w) && Enabled(w, step) && !LosesEdit(w, step) && !Quiet(step) && !OnlyReads(step)
    ensures Grounded(Next(w, step))
  {
    match step
    case ApplyEdit(r, h, edit) => EditStepIsGrounded(w, r, h, edit);
    case PushCover(r, h, body) => CoverStepIsGrounded(w, r, h, body);
    case AdoptSnapshot(_, _, _, _, _) => AdopterIsGrounded(w, step);
    case CompactNow(_, _) => CompactStepIsGrounded(w, step);
    case CompactIfDue(_, _, _) => CompactStepIsGrounded(w, step);
  }

  lemma StepStaysGrounded(w: World, step: Step)
    requires Sound(w) && Grounded(w) && Enabled(w, step) && !LosesEdit(w, step)
    ensures Grounded(Next(w, step))
  {
    if Quiet(step) {
      QuietStepIsGrounded(w, step);
    } else if OnlyReads(step) {
      ReadStepIsGrounded(w, step);
    } else {
      WriteStepIsGrounded(w, step);
    }
  }

  lemma {:induction false} RunStaysGrounded(worlds: seq<World>, steps: seq<Step>, i: nat)
    requires Execution(worlds, steps) && i < |worlds|
    requires forall k :: 0 <= k < |steps| ==> !LosesEdit(worlds[k], steps[k])
    ensures Grounded(worlds[i])
  {
    if i > 0 {
      RunStaysGrounded(worlds, steps, i - 1);
      EveryWorldSound(worlds, steps, i - 1);
      StepStaysGrounded(worlds[i - 1], steps[i - 1]);
    }
  }

  // ----- agreement -----

  /** Every dot ever written lies below its replica's head. */
  predicate HeadsReach(w: World) {
    forall d :: d in w.hist ==> d.counter < HeadCount(w.s, d.replica).GetOr(0)
  }

  /** The snapshot's state and the surviving log are together the deltas ever appended. */
  lemma EverythingIsRecorded(w: World, env: Envelope)
    requires Sound(w) && Grounded(w) && w.excused == {} && HeadsReach(w) && w.s.snapshot == Some(env)
    ensures env.Sealed? && env.body.Fold? && C.Everything(w.s, env.body.state) == DeltasOf(w.hist)
  {
    assert Honest(w.hist, w.excused, env);
    forall delta | delta in DeltasOf(w.hist)
      ensures delta in C.Everything(w.s, env.body.state)
    {
      var d :| d in w.hist && IsChange(w.hist[d]) && w.hist[d].body.delta == delta;
      if d !in w.s.log {
        assert Below(env.body.covered, d);
        assert Resolved(w.hist, w.excused, env.body.state, d);
      }
    }
    DeltasGrow(w.s.log, w.hist);
    forall delta | delta in C.Everything(w.s, env.body.state)
      ensures delta in DeltasOf(w.hist)
    {
      if delta !in env.body.state {
        var d :| d in w.s.log && IsChange(w.s.log[d]) && w.s.log[d].body.delta == delta;
        assert delta in DeltasOf(w.s.log);
      }
    }
  }

  /** A client of a sound world, with no blocked dot and nothing excused, is one that bootstrapping completes. */
  lemma SoundClientQualifies(w: World, c: Client, env: Envelope)
    requires Sound(w) && Grounded(w) && w.excused == {} && HeadsReach(w) && w.s.snapshot == Some(env)
    requires ClientSound(w.hist, w.excused, c) && Blockers(c) == {} && c.engine <= DeltasOf(w.hist)
    requires c.rejectedEtag != Some(Etag(env))
    ensures env.Sealed? && env.body.Fold? && C.Qualifies(c, w.s, env)
  {
    EverythingIsRecorded(w, env);
    forall r
      ensures At(c.pull, r) <= HeadCount(w.s, r).GetOr(0)
    {
      if At(c.pull, r) > 0 {
        assert Below(c.pull, Dot(r, At(c.pull, r) - 1));
      }
    }
    forall d | d in w.s.log && Below(c.pull, d) && IsChange(w.s.log[d])
      ensures w.s.log[d].body.delta in c.engine
    {
      assert Placed(c, d) && w.hist[d] == w.s.log[d];
      if d in c.adopted {
        assert Resolved(w.hist, w.excused, c.engine, d);
      }
    }
  }

  /** At the end of a run without drops or lost edits, over a quiet store whose heads show every entry, bootstrapping
      brings each client that has no blocked dot to exactly the deltas ever appended: so all of them agree. */
  lemma BootstrapRecoversEverything(worlds: seq<World>, steps: seq<Step>, r: Replica, h: Host, env: Envelope,
                                    adopt: seq<Replica>, pull: seq<Replica>, rule: PurgeRule, k: nat)
    requires Execution(worlds, steps)
    requires forall i :: 0 <= i < |steps| ==> DropFree(steps[i]) && !LosesEdit(worlds[i], steps[i])
    requires var w := worlds[|steps|]; HeadsReach(w) && C.Steady(w.s, env) && C.Accepting(w.s, env, h)
    requires var w := worlds[|steps|];
             var c := if r in w.clients then w.clients[r] else Fresh(r);
             Blockers(c) == {} && c.rejectedEtag != Some(Etag(env)) &&
             forall q :: q in w.s.heads ==> HeadCount(w.s, q).value <= At(c.pull, q) + k
    requires (forall q :: q in adopt <==> q in env.body.covered) && C.PullOrder(worlds[|steps|].s, pull) && k > 0
    ensures var w := worlds[|steps|];
            var c := if r in w.clients then w.clients[r] else Fresh(r);
            C.Bootstraps(c, w.s, h, env, adopt, pull, rule, k).engine == DeltasOf(w.hist)
  {
    var w := worlds[|steps|];
    var c := if r in w.clients then w.clients[r] else Fresh(r);
    EveryWorldSound(worlds, steps, |steps|);
    RunStaysGrounded(worlds, steps, |steps|);
    NothingExcused(worlds, steps, |steps|);
    EverythingIsRecorded(w, env);
    if r in w.clients {
      SoundClientQualifies(w, c, env);
    } else {
      C.FreshQualifies(r, w.s, env);
    }
    C.BootstrapConverges(c, w.s, h, env, adopt, pull, rule, k);
  }
}
