/** The sync client and its store as the objects they are; each method does what `SyncModel` specifies. */
module SyncClient {
  import opened Wrappers
  import opened Counters
  import M = SyncModel
  import Decimal

  // ----- the store -----

  datatype Get<T> = Hit(value: T) | Missing | Reaped | Unreachable

  datatype PutResult = Stored | Conflict | NotReached

  class BlobStore {
    var log: map<M.Dot, M.Envelope>
    var heads: map<M.Replica, string>
    var snapshot: Option<M.Envelope>
    var gone: set<M.Dot>
    var down: set<M.Key>

    constructor ()
      ensures View() == M.Blobs(map[], map[], None, {}, {})
    {
      log, heads, snapshot, gone, down := map[], map[], None, {}, {};
    }

    ghost function View(): M.Blobs
      reads this
    {
      M.Blobs(log, heads, snapshot, gone, down)
    }

    method GetLog(d: M.Dot) returns (r: Get<M.Envelope>)
      ensures r == if M.LogObject(d) in down then Unreachable
                   else if d in log then Hit(log[d]) else if d in gone then Reaped else Missing
    {
      if M.LogObject(d) in down {
        r := Unreachable;
      } else if d in log {
        r := Hit(log[d]);
      } else {
        r := if d in gone then Reaped else Missing;
      }
    }

    /** A put that requires the key to be absent. */
    method PutLog(d: M.Dot, env: M.Envelope) returns (r: PutResult)
      modifies this
      ensures r == if M.LogObject(d) in old(down) then NotReached else if d in old(log) then Conflict else Stored
      ensures View() == if r == Stored then old(View()).(log := old(log)[d := env], gone := old(gone) - {d}) else old(View())
    {
      if M.LogObject(d) in down {
        r := NotReached;
      } else if d in log {
        r := Conflict;
      } else {
        r := Stored;
        log, gone := log[d := env], gone - {d};
      }
    }

    method GetHead(replica: M.Replica) returns (r: Get<string>)
      ensures r == if M.HeadPointer(replica) in down then Unreachable
                   else if replica in heads then Hit(heads[replica]) else Missing
    {
      if M.HeadPointer(replica) in down {
        r := Unreachable;
      } else {
        r := if replica in heads then Hit(heads[replica]) else Missing;
      }
    }

    method PutHead(replica: M.Replica, text: string) returns (ok: bool)
      modifies this`heads
      ensures ok == (M.HeadPointer(replica) !in down)
      ensures heads == if ok then old(heads)[replica := text] else old(heads)
    {
      ok := M.HeadPointer(replica) !in down;
      if ok {
        heads := heads[replica := text];
      }
    }

    /** The replicas that have a head pointer, in some order. */
    method ListHeads() returns (ok: bool, names: seq<M.Replica>)
      ensures ok == (M.HeadListing !in down)
      ensures ok ==> Lists(names, heads.Keys)
    {
      ok := M.HeadListing !in down;
      names := Enumerate(heads.Keys);
    }

    method GetSnapshot() returns (r: Get<M.Envelope>)
      ensures r == if M.SnapshotPointer in down then Unreachable
                   else if snapshot.Some? then Hit(snapshot.value) else Missing
    {
      if M.SnapshotPointer in down {
        r := Unreachable;
      } else {
        r := match snapshot case Some(env) => Hit(env) case None => Missing;
      }
    }

    method PutSnapshot(env: M.Envelope) returns (ok: bool)
      modifies this`snapshot
      ensures ok == (M.SnapshotPointer !in down)
      ensures snapshot == if ok then Some(env) else old(snapshot)
    {
      ok := M.SnapshotPointer !in down;
      if ok {
        snapshot := Some(env);
      }
    }

    method CountLog() returns (ok: bool, n: nat)
      ensures ok == (M.LogListing !in down) && n == |log|
    {
      ok, n := M.LogListing !in down, |log|;
    }
  }

  /** `order` holds exactly the members of `s`, each once. */
  ghost predicate Lists<T>(order: seq<T>, s: set<T>) {
    && (forall i :: 0 <= i < |order| ==> order[i] in s)
    && (forall x :: x in s ==> x in order)
    && (forall i, j :: 0 <= i < j < |order| ==> order[i] != order[j])
  }

  method Enumerate<T(==)>(s: set<T>) returns (order: seq<T>)
    ensures Lists(order, s)
  {
    order := [];
    var left := s;
    while left != {}
      invariant left <= s && Lists(order, s - left)
      decreases left
    {
      var x :| x in left;
      order, left := order + [x], left - {x};
    }
  }

  // ----- the client -----

  class BlobSyncClient {
    const store: BlobStore
    const replica: M.Replica
    var next: nat
    var prev: Option<M.Envelope>
    var pull: M.Frontier
    var held: set<M.Dot>
    var stalled: map<M.Dot, M.Cause>
    var dropped: set<M.Dot>
    var quarantined: nat
    var logLen: nat
    var rejections: nat
    var rejectedEtag: Option<M.Etag>
    var engine: set<M.Delta>
    ghost var folded: set<M.Dot>
    ghost var covers: set<M.Dot>
    ghost var suppressed: set<M.Dot>
    ghost var adopted: set<M.Dot>

    constructor (store: BlobStore, replica: M.Replica)
      ensures State() == M.Fresh(replica) && this.store == store
    {
      this.store, this.replica := store, replica;
      next, prev, pull, held, stalled, dropped := 0, None, map[], {}, map[], {};
      quarantined, logLen, rejections, rejectedEtag, engine := 0, 0, 0, None, {};
      folded, covers, suppressed, adopted := {}, {}, {}, {};
    }

    ghost function State(): M.Client
      reads this
    {
      M.Client(replica, next, prev, pull, held, stalled, dropped, quarantined, logLen, rejections, rejectedEtag,
               engine, folded, covers, suppressed, adopted)
    }

    // ----- reading and disposing of one object -----

    method ReadLog(d: M.Dot) returns (r: M.Read)
      ensures r == M.ReadLog(store.View(), d)
    {
      var g := store.GetLog(d);
      match g {
        case Hit(env) => r := M.Found(env);
        case Missing => r := M.Absent;
        case Reaped => r := M.Absent;
        case Unreachable => r := M.Failed;
      }
    }

    method Quarantine(d: M.Dot, cause: M.Cause)
      modifies this`stalled, this`quarantined
      ensures State() == M.Quarantine(old(State()), d, cause)
    {
      stalled, quarantined := stalled[d := cause], quarantined + 1;
    }

    method Absorb(d: M.Dot, env: M.Envelope)
      requires env.Sealed? && env.body.Change?
      modifies this`engine, this`folded
      ensures State() == M.Absorb(old(State()), d, env)
    {
      engine, folded := engine + {env.body.delta}, folded + {d};
    }

    method TryMerge(h: M.Host, d: M.Dot, env: M.Envelope, ghost run: M.Run) returns (one: nat)
      requires run.c == State()
      modifies this`engine, this`folded, this`stalled, this`quarantined
      ensures run.(c := State(), merged := run.merged + one) == M.TryMerge(run, h, d, env)
    {
      if M.Merges(h, env) {
        Absorb(d, env);
        one := 1;
      } else {
        Quarantine(d, M.MergeFailed);
        one := 0;
      }
    }

    // ----- appending -----

    method Record(env: M.Envelope, kind: M.Kind)
      modifies this`next, this`prev, this`covers, this`folded
      ensures State() == M.Recorded(old(State()), env, kind)
    {
      var dot := M.Dot(replica, next);
      next, prev := next + 1, Some(env);
      if kind == M.KCover {
        covers := covers + {dot};
      } else {
        folded := folded + {dot};
      }
    }

    method AppendEntry(h: M.Host, kind: M.Kind, body: M.Plaintext) returns (ok: bool)
      modifies this, store
      ensures M.Written(State(), store.View(), ok) == M.Append(old(State()), old(store.View()), h, kind, body)
    {
      var env := M.Sealed(kind, next, prev, body);
      prev := None;
      if !h.seals {
        return false;
      }
      var dot := M.Dot(replica, next);
      var put := store.PutLog(dot, env);
      if put == NotReached {
        return false;
      }
      assert store.View() == M.Stored(old(store.View()), dot, env);
      Record(env, kind);
      assert State() == M.Recorded(old(State()), env, kind);
      ok := store.PutHead(replica, Decimal.Print(next));
      if ok {
        pull := pull[replica := Max(At(pull, replica), next)];
        assert State() == M.Announced(M.Recorded(old(State()), env, kind));
      }
    }

    method Apply(h: M.Host, edit: Option<M.Delta>) returns (ok: bool)
      modifies this, store
      ensures M.Written(State(), store.View(), ok) == M.Apply(old(State()), old(store.View()), h, edit)
    {
      match edit {
        case None => ok := true;
        case Some(delta) =>
          engine := engine + {delta};
          ok := AppendEntry(h, M.KDelta, M.Change(delta));
      }
    }

    // ----- pull -----

    method Pull(h: M.Host) returns (ok: bool, merged: nat, ghost order: seq<M.Replica>)
      modifies this
      ensures M.HeadListing !in store.down ==> Lists(order, store.heads.Keys)
      ensures M.Run(State(), [], merged, ok) == M.Pull(old(State()), store.View(), h, order)
    {
      merged, order := 0, [];
      var listed, names := store.ListHeads();
      if !listed {
        return false, 0, [];
      }
      order, ok := names, true;
      ghost var goal := M.PullAll(M.Run(State(), [], 0, true), store.View(), h, names);
      for i := 0 to |names|
        invariant ok && M.PullAll(M.Run(State(), [], merged, true), store.View(), h, names[i..]) == goal
      {
        assert names[i..][0] == names[i] && names[i..][1..] == names[i + 1..];
        ok, merged := PullReplica(h, names[i], merged);
        if !ok {
          return;
        }
      }
    }

    method PullReplica(h: M.Host, r: M.Replica, merged: nat) returns (ok: bool, total: nat)
      modifies this
      ensures M.Run(State(), [], total, ok) == M.PullReplica(M.Run(old(State()), [], merged, true), store.View(), h, r)
    {
      total := merged;
      var got := store.GetHead(r);
      match got {
        case Unreachable => return false, merged;
        case Missing => return true, merged;
        case Reaped => return true, merged;
        case Hit(text) =>
          var count := Decimal.ParseU64(text);
          match count {
            case None =>
              quarantined := quarantined + 1;
              return true, merged;
            case Some(head) => ok, total := PullGap(h, r, head, merged);
          }
      }
    }

    method PullGap(h: M.Host, r: M.Replica, head: nat, merged: nat) returns (ok: bool, total: nat)
      modifies this
      ensures M.Run(State(), [], total, ok) ==
              M.PullGap(M.Run(old(State()), [], merged, true), store.View(), h, r, At(old(pull), r), head)
    {
      total := merged;
      var c := At(pull, r);
      ghost var goal := M.PullGap(M.Run(State(), [], total, true), store.View(), h, r, c, head);
      while c < head
        invariant M.PullGap(M.Run(State(), [], total, true), store.View(), h, r, c, head) == goal
      {
        var read := ReadLog(M.Dot(r, c));
        match read {
          case Failed => return false, total;
          case Absent => break;
          case Found(env) => total := TakePlain(h, M.Dot(r, c), env, total);
        }
        c := c + 1;
      }
      pull := pull[r := c];
      ok := true;
    }

    method TakePlain(h: M.Host, d: M.Dot, env: M.Envelope, merged: nat) returns (total: nat)
      modifies this
      ensures M.Run(State(), [], total, true) == M.TakePlain(M.Run(old(State()), [], merged, true), h, d, env)
    {
      total := merged;
      if M.Opens(h, M.KDelta, env) {
        var one := TryMerge(h, d, env, M.Run(State(), [], merged, true));
        total := total + one;
      } else {
        Quarantine(d, M.Unopenable);
      }
    }

    // ----- pull_verified -----

    method Unhold(d: M.Dot)
      modifies this`held
      ensures State() == old(State()).(held := old(held) - {d})
    {
      held := held - {d};
    }

    method Stall(d: M.Dot, cause: M.Cause)
      modifies this`stalled
      ensures State() == M.Stall(old(State()), d, cause)
    {
      stalled := stalled[d := cause];
    }

    method DropDot(d: M.Dot)
      modifies this`dropped, this`suppressed
      ensures State() == old(State()).(dropped := old(dropped) + {d}, suppressed := old(suppressed) + {d})
    {
      dropped, suppressed := dropped + {d}, suppressed + {d};
    }

    method DrainOne(h: M.Host, g: M.Classifier, d: M.Dot, trail: M.Trail, merged: nat)
      returns (ok: bool, heard: M.Trail, total: nat)
      modifies this
      ensures M.Run(State(), heard, total, ok) == M.DrainOne(M.Run(old(State()), trail, merged, true), store.View(), h, g, d)
    {
      ok, heard, total := true, trail, merged;
      ghost var run := M.Run(State(), trail, merged, true);
      var read := ReadLog(d);
      match read {
        case Failed => ok := false;
        case Absent =>
          Unhold(d);
          Stall(d, M.Vanished);
        case Found(env) =>
          if !M.Opens(h, M.KDelta, env) {
            Unhold(d);
            Quarantine(d, M.Unopenable);
            return;
          }
          heard := trail + [M.Judged(d, env)];
          match g(trail, d, env) {
            case Accept =>
              Unhold(d);
              var one := TryMerge(h, d, env, M.Unhold(run.(trail := heard), d));
              total := merged + one;
            case Reject =>
              Unhold(d);
              Stall(d, M.Rejected);
            case Drop =>
              Unhold(d);
              DropDot(d);
            case Hold =>
          }
      }
    }

    method ScanOne(h: M.Host, d: M.Dot, env: M.Envelope, trail: M.Trail, merged: nat, buffer: seq<M.Pending>)
      returns (heard: M.Trail, longer: seq<M.Pending>)
      modifies this
      ensures M.Scan(M.Run(State(), heard, merged, true), longer) ==
              M.ScanOne(M.Scan(M.Run(old(State()), trail, merged, true), buffer), h, d, env)
    {
      heard, longer := trail, buffer;
      if M.Opens(h, M.KCover, env) {
        covers, heard := covers + {d}, trail + [M.Covered(d, env)];
      } else if M.Opens(h, M.KDelta, env) {
        longer := buffer + [M.Pending(d, env)];
      } else {
        Quarantine(d, M.Unopenable);
      }
    }

    method ScanGap(h: M.Host, r: M.Replica, head: nat, trail: M.Trail, merged: nat, buffer: seq<M.Pending>)
      returns (ok: bool, heard: M.Trail, longer: seq<M.Pending>)
      modifies this
      ensures M.Scan(M.Run(State(), heard, merged, ok), longer) ==
              M.ScanGap(M.Scan(M.Run(old(State()), trail, merged, true), buffer), store.View(), h, r, At(old(pull), r), head)
    {
      heard, longer := trail, buffer;
      var c := At(pull, r);
      ghost var goal := M.ScanGap(M.Scan(M.Run(State(), heard, merged, true), longer), store.View(), h, r, c, head);
      while c < head
        invariant M.ScanGap(M.Scan(M.Run(State(), heard, merged, true), longer), store.View(), h, r, c, head) == goal
      {
        var read := ReadLog(M.Dot(r, c));
        match read {
          case Failed => return false, heard, longer;
          case Absent => break;
          case Found(env) => heard, longer := ScanOne(h, M.Dot(r, c), env, heard, merged, longer);
        }
        c := c + 1;
      }
      pull := pull[r := c];
      ok := true;
    }

    method ScanReplica(h: M.Host, r: M.Replica, trail: M.Trail, merged: nat, buffer: seq<M.Pending>)
      returns (ok: bool, heard: M.Trail, longer: seq<M.Pending>)
      modifies this
      ensures M.Scan(M.Run(State(), heard, merged, ok), longer) ==
              M.ScanReplica(M.Scan(M.Run(old(State()), trail, merged, true), buffer), store.View(), h, r)
    {
      ok, heard, longer := true, trail, buffer;
      var got := store.GetHead(r);
      match got {
        case Unreachable => ok := false;
        case Missing =>
        case Reaped =>
        case Hit(text) =>
          var count := Decimal.ParseU64(text);
          match count {
            case None => quarantined := quarantined + 1;
            case Some(head) => ok, heard, longer := ScanGap(h, r, head, trail, merged, buffer);
          }
      }
    }

    method JudgeOne(h: M.Host, g: M.Classifier, p: M.Pending, trail: M.Trail, merged: nat)
      returns (heard: M.Trail, total: nat)
      modifies this
      ensures M.Run(State(), heard, total, true) == M.JudgeOne(M.Run(old(State()), trail, merged, true), h, g, p)
    {
      heard, total := trail + [M.Judged(p.dot, p.env)], merged;
      match g(trail, p.dot, p.env) {
        case Accept =>
          var one := TryMerge(h, p.dot, p.env, M.Run(State(), heard, merged, true));
          total := merged + one;
        case Hold => held := held + {p.dot};
        case Reject => Stall(p.dot, M.Rejected);
        case Drop => DropDot(p.dot);
      }
    }

    /** The retry of the held dots, in some order. */
    method DrainHeld(h: M.Host, g: M.Classifier) returns (ok: bool, trail: M.Trail, merged: nat, ghost drain: seq<M.Dot>)
      modifies this
      ensures Lists(drain, old(held))
      ensures M.Run(State(), trail, merged, ok) == M.Drain(M.Run(old(State()), [], 0, true), store.View(), h, g, drain)
    {
      var order := Enumerate(held);
      ok, trail, merged, drain := true, [], 0, order;
      ghost var goal := M.Drain(M.Run(State(), [], 0, true), store.View(), h, g, order);
      for i := 0 to |order|
        invariant ok && M.Drain(M.Run(State(), trail, merged, true), store.View(), h, g, order[i..]) == goal
      {
        assert order[i..][0] == order[i] && order[i..][1..] == order[i + 1..];
        ok, trail, merged := DrainOne(h, g, order[i], trail, merged);
        if !ok {
          return;
        }
      }
    }

    method ScanHeads(h: M.Host, names: seq<M.Replica>, trail: M.Trail, merged: nat)
      returns (ok: bool, heard: M.Trail, buffer: seq<M.Pending>)
      modifies this
      ensures M.Scan(M.Run(State(), heard, merged, ok), buffer) ==
              M.ScanAll(M.Scan(M.Run(old(State()), trail, merged, true), []), store.View(), h, names)
    {
      ok, heard, buffer := true, trail, [];
      ghost var goal := M.ScanAll(M.Scan(M.Run(State(), trail, merged, true), []), store.View(), h, names);
      for i := 0 to |names|
        invariant ok && M.ScanAll(M.Scan(M.Run(State(), heard, merged, true), buffer), store.View(), h, names[i..]) == goal
      {
        assert names[i..][0] == names[i] && names[i..][1..] == names[i + 1..];
        ok, heard, buffer := ScanReplica(h, names[i], heard, merged, buffer);
        if !ok {
          return;
        }
      }
    }

    method JudgeAll(h: M.Host, g: M.Classifier, buffer: seq<M.Pending>, trail: M.Trail, merged: nat)
      returns (heard: M.Trail, total: nat)
      modifies this
      ensures M.Run(State(), heard, total, true) == M.Judge(M.Run(old(State()), trail, merged, true), h, g, buffer)
    {
      heard, total := trail, merged;
      ghost var goal := M.Judge(M.Run(State(), trail, merged, true), h, g, buffer);
      for i := 0 to |buffer|
        invariant M.Judge(M.Run(State(), heard, total, true), h, g, buffer[i..]) == goal
      {
        assert buffer[i..][0] == buffer[i] && buffer[i..][1..] == buffer[i + 1..];
        heard, total := JudgeOne(h, g, buffer[i], heard, total);
      }
    }

    /** Retry what is held, fold every cover in the gap, and only then judge every delta in it. */
    method PullVerified(h: M.Host, g: M.Classifier)
      returns (ok: bool, trail: M.Trail, merged: nat, ghost drain: seq<M.Dot>, ghost order: seq<M.Replica>)
      modifies this
      ensures Lists(drain, old(held))
      ensures M.HeadListing !in store.down && ok ==> Lists(order, store.heads.Keys)
      ensures M.Run(State(), trail, merged, ok) == M.PullVerified(old(State()), store.View(), h, g, drain, order)
    {
      order := [];
      ok, trail, merged, drain := DrainHeld(h, g);
      if !ok {
        return;
      }
      var listed, names := store.ListHeads();
      if !listed {
        ok := false;
        return;
      }
      order := names;
      var buffer;
      ok, trail, buffer := ScanHeads(h, names, trail, merged);
      if !ok {
        return;
      }
      trail, merged := JudgeAll(h, g, buffer, trail, merged);
    }

    // ----- retry_stalled -----

    method Unstall(d: M.Dot)
      modifies this`stalled
      ensures State() == old(State()).(stalled := old(stalled) - {d})
    {
      stalled := stalled - {d};
    }

    method RetryOne(h: M.Host, g: M.Classifier, d: M.Dot, trail: M.Trail, cleared: nat)
      returns (ok: bool, heard: M.Trail, total: nat)
      modifies this
      ensures M.Run(State(), heard, total, ok) == M.RetryOne(M.Run(old(State()), trail, cleared, true), store.View(), h, g, d)
    {
      ok, heard, total := true, trail, cleared;
      var read := ReadLog(d);
      match read {
        case Failed => ok := false;
        case Absent =>
        case Found(env) =>
          if M.Opens(h, M.KCover, env) {
            Unstall(d);
            covers, heard, total := covers + {d}, trail + [M.Covered(d, env)], cleared + 1;
            return;
          }
          if !M.Opens(h, M.KDelta, env) {
            return;
          }
          heard := trail + [M.Judged(d, env)];
          match g(trail, d, env) {
            case Accept =>
              if M.Merges(h, env) {
                Unstall(d);
                Absorb(d, env);
                total := cleared + 1;
              }
            case Hold =>
              Unstall(d);
              held, total := held + {d}, cleared + 1;
            case Drop =>
              Unstall(d);
              DropDot(d);
              total := cleared + 1;
            case Reject =>
          }
      }
    }

    method RetryStalled(h: M.Host, g: M.Classifier)
      returns (ok: bool, trail: M.Trail, cleared: nat, ghost order: seq<M.Dot>)
      modifies this
      ensures Lists(order, old(stalled).Keys)
      ensures M.Run(State(), trail, cleared, ok) == M.RetryStalled(old(State()), store.View(), h, g, order)
    {
      var stalls := Enumerate(stalled.Keys);
      ok, trail, cleared, order := true, [], 0, stalls;
      ghost var goal := M.RetryAll(M.Run(State(), [], 0, true), store.View(), h, g, stalls);
      for i := 0 to |stalls|
        invariant ok && M.RetryAll(M.Run(State(), trail, cleared, true), store.View(), h, g, stalls[i..]) == goal
      {
        assert stalls[i..][0] == stalls[i] && stalls[i..][1..] == stalls[i + 1..];
        ok, trail, cleared := RetryOne(h, g, stalls[i], trail, cleared);
        if !ok {
          return;
        }
      }
    }

    // ----- the subsumed frontier -----

    /** Clamp each replica's count down to its lowest blocker. */
    method SubsumedFrontier() returns (out: M.Frontier)
      ensures out == M.Subsumed(State())
    {
      out := pull;
      var left := held + stalled.Keys;
      while left != {}
        invariant left <= M.Blockers(State()) && out.Keys == pull.Keys
        invariant forall r :: r in pull ==> out[r] <= pull[r] && (out[r] < pull[r] ==> M.Dot(r, out[r]) in M.Blockers(State()))
        invariant forall d :: d in M.Blockers(State()) && d !in left && d.replica in pull ==> out[d.replica] <= d.counter
        decreases left
      {
        var d :| d in left;
        left := left - {d};
        if d.replica in out {
          out := out[d.replica := Min(out[d.replica], d.counter)];
        }
      }
      forall r | r in pull
        ensures out[r] == M.FirstBlocked(M.Blockers(State()), r, 0, pull[r])
      {
        var first := M.FirstBlocked(M.Blockers(State()), r, 0, pull[r]);
        assert M.Dot(r, first) in M.Blockers(State()) ==> out[r] <= M.Dot(r, first).counter;
      }
    }

    // ----- snapshots -----

    method SnapshotCoveredFrontier(h: M.Host) returns (r: M.Coverage)
      ensures r == M.CoveredBySnapshot(State(), store.View(), h)
    {
      var got := store.GetSnapshot();
      match got {
        case Unreachable => r := M.Unreadable;
        case Missing => r := M.Unpublished;
        case Reaped => r := M.Unpublished;
        case Hit(env) =>
          if rejectedEtag == Some(M.Etag(env)) {
            r := M.Unpublished;
          } else if !M.Opens(h, M.KSnapshot, env) {
            r := M.Unreadable;
          } else {
            r := if env.body.Fold? then M.Published(env.body.covered) else M.Unpublished;
          }
      }
    }

    method Leads(f: M.Frontier, g: M.Frontier) returns (b: bool)
      ensures b == M.Exceeds(f, g)
    {
      var left := f.Keys;
      while left != {}
        invariant left <= f.Keys && forall r :: r in f && r !in left ==> f[r] <= At(g, r)
        decreases left
      {
        var r :| r in left;
        if f[r] > At(g, r) {
          return true;
        }
        left := left - {r};
      }
      return false;
    }

    /** Whether the current snapshot covers something this client lacks, or a dot it dropped. */
    method NeedsSnapshotAdoption(h: M.Host) returns (ok: bool, needs: bool)
      ensures ok == !M.CoveredBySnapshot(State(), store.View(), h).Unreadable?
      ensures ok ==> needs == (M.CoveredBySnapshot(State(), store.View(), h).Published? &&
                               M.NeedsAdoption(State(), M.CoveredBySnapshot(State(), store.View(), h).covered))
    {
      var subsumed := SubsumedFrontier();
      var coverage := SnapshotCoveredFrontier(h);
      match coverage {
        case Unreadable => return false, false;
        case Unpublished => return true, false;
        case Published(covered) =>
          ok := true;
          needs := Leads(covered, subsumed);
          if !needs {
            var left := dropped;
            while left != {}
              invariant left <= dropped && forall d :: d in dropped && d !in left ==> !M.Below(covered, d)
              decreases left
            {
              var d :| d in left;
              if M.Below(covered, d) {
                return true, true;
              }
              left := left - {d};
            }
          }
      }
    }

    method Compact(h: M.Host) returns (ok: bool)
      modifies this, store
      ensures M.Written(State(), store.View(), ok) == M.Compact(old(State()), old(store.View()), h)
    {
      var subsumed := SubsumedFrontier();
      var coverage := SnapshotCoveredFrontier(h);
      if coverage.Unreadable? {
        return false;
      }
      if coverage.Published? {
        var regresses := Leads(coverage.covered, subsumed);
        if regresses {
          return true;
        }
      }
      if !h.seals {
        return false;
      }
      var env := M.Sealed(M.KSnapshot, next, prev, M.Fold(subsumed, engine));
      ok := store.PutSnapshot(env);
      assert ok && State() == old(State());
      var n;
      ok, n := store.CountLog();
      if ok {
        logLen := n;
      }
    }

    method MaybeCompact(h: M.Host, due: (nat, bool) -> bool) returns (ok: bool, reported: bool)
      modifies this, store
      ensures M.Compaction(State(), store.View(), ok, reported) == M.MaybeCompact(old(State()), old(store.View()), h, due)
    {
      var counted, total := store.CountLog();
      if !counted {
        return false, false;
      }
      var got := store.GetSnapshot();
      if got.Unreachable? {
        return false, false;
      }
      var accrued := if total >= logLen then total - logLen else 0;
      if !due(accrued, got.Hit?) {
        return true, false;
      }
      var readable, worthwhile := HasNews(h);
      if !readable {
        return false, false;
      }
      if !worthwhile {
        logLen := total;
        return true, false;
      }
      ok := Compact(h);
      reported := ok;
    }

    /** Whether there is no published snapshot, or this client covers something it does not. */
    method HasNews(h: M.Host) returns (readable: bool, worthwhile: bool)
      ensures readable == !M.CoveredBySnapshot(State(), store.View(), h).Unreadable?
      ensures var coverage := M.CoveredBySnapshot(State(), store.View(), h);
              coverage.Unpublished? ==> worthwhile
      ensures var coverage := M.CoveredBySnapshot(State(), store.View(), h);
              coverage.Published? ==> (worthwhile <==> M.Exceeds(M.Subsumed(State()), coverage.covered))
    {
      var subsumed := SubsumedFrontier();
      var coverage := SnapshotCoveredFrontier(h);
      if coverage.Unreadable? {
        return false, false;
      }
      if coverage.Published? {
        worthwhile := Leads(subsumed, coverage.covered);
        return true, worthwhile;
      }
      return true, true;
    }

    // ----- adopting a snapshot -----

    method PassAbsent(r: M.Replica, start: nat, cap: nat) returns (c: nat)
      ensures c == M.SkipAbsent(store.View(), r, start, cap)
    {
      c := start;
      while c < cap
        invariant M.SkipAbsent(store.View(), r, c, cap) == M.SkipAbsent(store.View(), r, start, cap)
      {
        var read := ReadLog(M.Dot(r, c));
        if read != M.Absent {
          break;
        }
        c := c + 1;
      }
    }

    method PurgeBelow(r: M.Replica, limit: nat, cap: nat)
      modifies this`held, this`stalled, this`dropped
      ensures held == M.Purge(old(held), r, limit) && dropped == M.Purge(old(dropped), r, cap)
      ensures stalled == map d | d in M.Purge(old(stalled).Keys, r, limit) :: old(stalled)[d]
    {
      var was := stalled;
      held := M.Purge(held, r, limit);
      stalled := map d | d in M.Purge(was.Keys, r, limit) :: was[d];
      dropped := M.Purge(dropped, r, cap);
    }

    /** A head that is missing or does not decode counts as 0. */
    method ObservedHead(r: M.Replica) returns (ok: bool, head: nat)
      ensures ok == (M.HeadPointer(r) !in store.down)
      ensures ok ==> head == M.HeadCount(store.View(), r).GetOr(0)
    {
      var got := store.GetHead(r);
      ok := !got.Unreachable?;
      head := if got.Hit? then Decimal.ParseU64(got.value).GetOr(0) else 0;
    }

    method AdoptReplica(r: M.Replica, claimed: nat, rule: M.PurgeRule) returns (ok: bool)
      modifies this
      ensures ok == (M.HeadPointer(r) !in store.down)
      ensures State() == if ok then M.Claim(old(State()), store.View(), r, claimed, rule) else old(State())
    {
      var head;
      ok, head := ObservedHead(r);
      if !ok {
        return;
      }
      var cap := Min(claimed, head);
      var start := At(pull, r);
      var c := PassAbsent(r, start, cap);
      if c > start {
        pull := pull[r := c];
      }
      PurgeBelow(r, M.PurgeLimit(rule, c, cap), cap);
    }

    method AdoptSnapshotBaseline(h: M.Host, trusts: M.Envelope -> bool, rule: M.PurgeRule)
      returns (ok: bool, ghost order: seq<M.Replica>)
      modifies this
      ensures M.OfferOf(old(State()), store.View(), h, trusts).Offered? ==>
                Lists(order, M.OfferOf(old(State()), store.View(), h, trusts).covered.Keys)
      ensures M.Run(State(), [], 0, ok) == M.Adopt(old(State()), store.View(), h, trusts, order, rule)
    {
      order := [];
      var got := store.GetSnapshot();
      match got {
        case Unreachable => return false, [];
        case Missing => return true, [];
        case Reaped => return true, [];
        case Hit(env) =>
          if rejectedEtag == Some(M.Etag(env)) {
            return true, [];
          }
          if !M.Opens(h, M.KSnapshot, env) {
            return false, [];
          }
          if !trusts(env) {
            rejections, rejectedEtag := rejections + 1, Some(M.Etag(env));
            return true, [];
          }
          if !env.body.Fold? {
            return true, [];
          }
          if !h.restores(env.body.state) {
            return false, [];
          }
          ok, order := AdoptClaims(env.body.covered, env.body.state, rule);
      }
    }

    method AdoptClaims(covered: M.Frontier, state: set<M.Delta>, rule: M.PurgeRule)
      returns (ok: bool, ghost order: seq<M.Replica>)
      modifies this
      ensures Lists(order, covered.Keys)
      ensures M.Run(State(), [], 0, ok) ==
              M.AdoptAll(M.Run(M.Restore(old(State()), covered, state), [], 0, true), store.View(), covered, order, rule)
    {
      engine, adopted := engine + state, adopted + M.Claimed(covered);
      var names := Enumerate(covered.Keys);
      order := names;
      ok := AdoptEach(covered, names, rule);
    }

    method AdoptEach(covered: M.Frontier, names: seq<M.Replica>, rule: M.PurgeRule) returns (ok: bool)
      requires forall i :: 0 <= i < |names| ==> names[i] in covered
      modifies this
      ensures M.Run(State(), [], 0, ok) ==
              M.AdoptAll(M.Run(old(State()), [], 0, true), store.View(), covered, names, rule)
    {
      ok := true;
      ghost var goal := M.AdoptAll(M.Run(State(), [], 0, true), store.View(), covered, names, rule);
      for i := 0 to |names|
        invariant ok && M.AdoptAll(M.Run(State(), [], 0, true), store.View(), covered, names[i..], rule) == goal
      {
        assert names[i..][0] == names[i] && names[i..][1..] == names[i + 1..];
        ok := AdoptReplica(names[i], covered[names[i]], rule);
        if !ok {
          return;
        }
      }
    }

    // ----- dropped dots -----

    method ReadmitDropped(h: M.Host, admits: M.Envelope -> bool, d: M.Dot) returns (ok: bool, admitted: bool)
      modifies this
      ensures M.Readmission(State(), ok, admitted) == M.Readmit(old(State()), store.View(), h, admits, d)
    {
      if d !in dropped {
        return true, false;
      }
      var read := ReadLog(d);
      match read {
        case Failed => return false, false;
        case Absent =>
          dropped := dropped - {d};
          return true, false;
        case Found(env) =>
          if !M.Opens(h, M.KDelta, env) || !admits(env) || !M.Merges(h, env) {
            return true, false;
          }
          Absorb(d, env);
          dropped := dropped - {d};
          return true, true;
      }
    }

    method ForgetDropped(d: M.Dot) returns (present: bool)
      modifies this`dropped
      ensures State() == M.Forget(old(State()), d) && present == (d in old(dropped))
    {
      present := d in dropped;
      dropped := dropped - {d};
    }

    // ----- bootstrapping -----

    /** The unverified bootstrap: trust any snapshot that opens, then pull the tail. */
    method Bootstrap(h: M.Host, rule: M.PurgeRule)
      returns (ok: bool, ghost adopt: seq<M.Replica>, ghost order: seq<M.Replica>)
      modifies this
      ensures M.OfferOf(old(State()), store.View(), h, env => true).Offered? ==>
                Lists(adopt, M.OfferOf(old(State()), store.View(), h, env => true).covered.Keys)
      ensures var mid := M.Adopt(old(State()), store.View(), h, env => true, adopt, rule);
              if mid.ok then ok == M.Pull(mid.c, store.View(), h, order).ok && State() == M.Pull(mid.c, store.View(), h, order).c
              else !ok && State() == mid.c
    {
      order := [];
      ok, adopt := AdoptSnapshotBaseline(h, env => true, rule);
      if ok {
        var merged;
        ok, merged, order := Pull(h);
      }
    }

    /** The verified bootstrap: authenticate the snapshot, then judge the tail. */
    method BootstrapVerified(h: M.Host, g: M.Classifier, trusts: M.Envelope -> bool, rule: M.PurgeRule)
      returns (ok: bool, ghost adopt: seq<M.Replica>, ghost drain: seq<M.Dot>, ghost order: seq<M.Replica>)
      modifies this
      ensures M.OfferOf(old(State()), store.View(), h, trusts).Offered? ==>
                Lists(adopt, M.OfferOf(old(State()), store.View(), h, trusts).covered.Keys)
      ensures var mid := M.Adopt(old(State()), store.View(), h, trusts, adopt, rule);
              if mid.ok then
                Lists(drain, mid.c.held) &&
                ok == M.PullVerified(mid.c, store.View(), h, g, drain, order).ok &&
                State() == M.PullVerified(mid.c, store.View(), h, g, drain, order).c
              else !ok && State() == mid.c
    {
      drain, order := [], [];
      ok, adopt := AdoptSnapshotBaseline(h, trusts, rule);
      if ok {
        var trail, merged;
        ok, trail, merged, drain, order := PullVerified(h, g);
      }
    }
  }
}
