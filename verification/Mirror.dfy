/**
  One-directional anti-entropy between two stores. A pass never lowers a head of the target, and raises one only
  over objects the target then has or the source reports reclaimed; a second pass finds nothing to do; and
  mirroring up and then down leaves two stores that agreed on shared dots with the same log.
*/
module Mirror {
  import opened Wrappers
  import opened Counters
  import opened SyncModel
  import C = SyncClient
  import Decimal

  // ----- what a pass does -----

  datatype Pass = Pass(to: Blobs, copied: nat, ok: bool)

  /** The copying of one replica's objects from `n` on; `cap` is as far as the head may then go. */
  datatype Gap = Gap(pass: Pass, cap: nat)

  function CopyGap(pass: Pass, from: Blobs, r: Replica, n: nat, head: nat): Gap
    decreases head - n
  {
    var d := Dot(r, n);
    if n >= head then Gap(pass, head)
    else if LogObject(d) in from.down then Gap(pass.(ok := false), n)
    else if d in from.log then
      if LogObject(d) in pass.to.down then Gap(pass.(ok := false), n)
      else CopyGap(pass.(to := Stored(pass.to, d, from.log[d]), copied := pass.copied + 1), from, r, n + 1, head)
    else if d in from.gone then CopyGap(pass, from, r, n + 1, head)
    else Gap(pass, n)
  }

  function MirrorReplica(pass: Pass, from: Blobs, r: Replica): Pass {
    if HeadPointer(r) in from.down then pass.(ok := false)
    else if HeadCount(from, r).None? then pass
    else if HeadPointer(r) in pass.to.down then pass.(ok := false)
    else
      var toHead := HeadCount(pass.to, r).GetOr(0);
      var gap := CopyGap(pass, from, r, toHead, Max(toHead, HeadCount(from, r).value));
      if gap.pass.ok && gap.cap > toHead then
        gap.pass.(to := gap.pass.to.(heads := gap.pass.to.heads[r := Decimal.Print(gap.cap)]))
      else gap.pass
  }

  function MirrorAll(pass: Pass, from: Blobs, order: seq<Replica>): Pass
    decreases order
  {
    if order == [] || !pass.ok then pass else MirrorAll(MirrorReplica(pass, from, order[0]), from, order[1..])
  }

  function CarrySnapshot(pass: Pass, from: Blobs): Pass {
    if !pass.ok then pass
    else if SnapshotPointer in from.down then pass.(ok := false)
    else if from.snapshot.None? then pass
    else if SnapshotPointer in pass.to.down then pass.(ok := false)
    else pass.(to := pass.to.(snapshot := from.snapshot))
  }

  function Mirrored(from: Blobs, to: Blobs, order: seq<Replica>): Pass {
    if HeadListing in from.down then Pass(to, 0, false)
    else CarrySnapshot(MirrorAll(Pass(to, 0, true), from, order), from)
  }

  // ----- the pass itself -----

  method CopyObjects(from: C.BlobStore, to: C.BlobStore, r: Replica, start: nat, fromHead: nat, before: nat)
    returns (ok: bool, copied: nat, cap: nat)
    requires from != to
    modifies to
    ensures Gap(Pass(to.View(), copied, ok), cap) ==
            CopyGap(Pass(old(to.View()), before, true), from.View(), r, start, Max(start, fromHead))
  {
    ok, copied := true, before;
    var head := Max(start, fromHead);
    var c := start;
    ghost var goal := CopyGap(Pass(to.View(), before, true), from.View(), r, start, head);
    while c < head
      invariant c <= head
      invariant CopyGap(Pass(to.View(), copied, true), from.View(), r, c, head) == goal
    {
      var d := Dot(r, c);
      var got := from.GetLog(d);
      match got {
        case Hit(env) =>
          var put := to.PutLog(d, env);
          if put == C.NotReached {
            return false, copied, c;
          }
          copied := copied + 1;
        case Reaped =>
        case Missing => return true, copied, c;
        case Unreachable => return false, copied, c;
      }
      c := c + 1;
    }
    cap := head;
  }

  method MirrorOne(from: C.BlobStore, to: C.BlobStore, r: Replica, before: nat) returns (ok: bool, copied: nat)
    requires from != to
    modifies to
    ensures Pass(to.View(), copied, ok) == MirrorReplica(Pass(old(to.View()), before, true), from.View(), r)
  {
    ok, copied := true, before;
    var got := from.GetHead(r);
    if got.Unreachable? {
      return false, before;
    }
    if !got.Hit? || Decimal.ParseU64(got.value).None? {
      return true, before;
    }
    var fromHead := Decimal.ParseU64(got.value).value;
    var there := to.GetHead(r);
    if there.Unreachable? {
      return false, before;
    }
    var toHead := if there.Hit? then Decimal.ParseU64(there.value).GetOr(0) else 0;
    var cap;
    ok, copied, cap := CopyObjects(from, to, r, toHead, fromHead, before);
    if ok && cap > toHead {
      CopyLeavesRest(Pass(old(to.View()), before, true), from.View(), r, toHead, Max(toHead, fromHead));
      ok := to.PutHead(r, Decimal.Print(cap));
    }
  }

  method Mirror(from: C.BlobStore, to: C.BlobStore) returns (ok: bool, copied: nat, ghost order: seq<Replica>)
    requires from != to
    modifies to
    ensures HeadListing !in from.down ==> C.Lists(order, from.heads.Keys)
    ensures Pass(to.View(), copied, ok) == Mirrored(from.View(), old(to.View()), order)
  {
    copied, order := 0, [];
    var listed, names := from.ListHeads();
    if !listed {
      return false, 0, [];
    }
    ok, order := true, names;
    ghost var goal := MirrorAll(Pass(to.View(), 0, true), from.View(), names);
    for i := 0 to |names|
      invariant ok && MirrorAll(Pass(to.View(), copied, true), from.View(), names[i..]) == goal
    {
      assert names[i..][0] == names[i] && names[i..][1..] == names[i + 1..];
      ok, copied := MirrorOne(from, to, names[i], copied);
      if !ok {
        return;
      }
    }
    var got := from.GetSnapshot();
    match got {
      case Unreachable => ok := false;
      case Missing =>
      case Reaped =>
      case Hit(env) =>
        var there := to.GetSnapshot();
        if there.Unreachable? {
          ok := false;
        } else if there != C.Hit(env) {
          ok := to.PutSnapshot(env);
        }
    }
  }

  // ----- one replica -----

  function Head(s: Blobs, r: Replica): nat {
    HeadCount(s, r).GetOr(0)
  }

  lemma {:induction false} CopyLeavesRest(pass: Pass, from: Blobs, r: Replica, n: nat, head: nat)
    requires n <= head
    ensures var gap := CopyGap(pass, from, r, n, head);
            gap.pass.to.heads == pass.to.heads && gap.pass.to.down == pass.to.down &&
            gap.pass.to.snapshot == pass.to.snapshot && n <= gap.cap <= head
    decreases head - n
  {
    var d := Dot(r, n);
    if n < head && LogObject(d) !in from.down {
      if d in from.log && LogObject(d) !in pass.to.down {
        CopyLeavesRest(pass.(to := Stored(pass.to, d, from.log[d]), copied := pass.copied + 1), from, r, n + 1, head);
      } else if d !in from.log && d in from.gone {
        CopyLeavesRest(pass, from, r, n + 1, head);
      }
    }
  }

  /** Objects are only added, each from the source, at its own dot, from `n` on; and the cap passes only objects the
      target has or the source reports reclaimed. */
  lemma {:induction false} CopyAdds(pass: Pass, from: Blobs, r: Replica, n: nat, head: nat)
    requires n <= head
    ensures var gap := CopyGap(pass, from, r, n, head);
            (forall d :: d in pass.to.log ==> d in gap.pass.to.log && gap.pass.to.log[d] == pass.to.log[d]) &&
            (forall d :: d in gap.pass.to.log && d !in pass.to.log ==>
               d.replica == r && n <= d.counter < head && d in from.log && gap.pass.to.log[d] == from.log[d]) &&
            (gap.pass.ok ==> forall k :: n <= k < gap.cap ==> Dot(r, k) in gap.pass.to.log || Dot(r, k) in from.gone) &&
            (gap.pass.ok ==> forall k :: n <= k < gap.cap && Dot(r, k) in from.log ==> Dot(r, k) in gap.pass.to.log)
    decreases head - n
  {
    var d := Dot(r, n);
    if n < head && LogObject(d) !in from.down {
      if d in from.log && LogObject(d) !in pass.to.down {
        var next := pass.(to := Stored(pass.to, d, from.log[d]), copied := pass.copied + 1);
        assert d in next.to.log;
        CopyAdds(next, from, r, n + 1, head);
      } else if d !in from.log && d in from.gone {
        CopyAdds(pass, from, r, n + 1, head);
      }
    }
  }

  /** Where an unhindered copy stops: at the source's head, or at the first object it neither has nor lost. */
  lemma {:induction false} CopyStops(pass: Pass, from: Blobs, r: Replica, n: nat, head: nat)
    requires n <= head && pass.ok
    ensures var gap := CopyGap(pass, from, r, n, head);
            gap.pass.ok && gap.cap < head ==>
              Dot(r, gap.cap) !in from.log && Dot(r, gap.cap) !in from.gone && LogObject(Dot(r, gap.cap)) !in from.down
    decreases head - n
  {
    var d := Dot(r, n);
    if n < head && LogObject(d) !in from.down {
      if d in from.log && LogObject(d) !in pass.to.down {
        CopyStops(pass.(to := Stored(pass.to, d, from.log[d]), copied := pass.copied + 1), from, r, n + 1, head);
      } else if d !in from.log && d in from.gone {
        CopyStops(pass, from, r, n + 1, head);
      }
    }
  }

  // ----- safety -----

  /** `to'` is `to` with objects of `from` added, and heads raised only over what is present or reclaimed. */
  ghost predicate Safe(from: Blobs, to: Blobs, to': Blobs) {
    && (forall d :: d in to.log ==> d in to'.log && to'.log[d] == to.log[d])
    && (forall d :: d in to'.log && d !in to.log ==>
          d in from.log && to'.log[d] == from.log[d] && Head(to, d.replica) <= d.counter < Head(from, d.replica))
    && (forall r :: Head(to, r) <= Head(to', r) <= Max(Head(to, r), Head(from, r)))
    && (forall d: Dot :: Head(to, d.replica) <= d.counter < Head(to', d.replica) ==> d in to'.log || d in from.gone)
  }

  lemma SafeTransitive(from: Blobs, a: Blobs, b: Blobs, c: Blobs)
    requires Safe(from, a, b) && Safe(from, b, c)
    ensures Safe(from, a, c)
  {
    forall d: Dot | Head(a, d.replica) <= d.counter < Head(c, d.replica)
      ensures d in c.log || d in from.gone
    {
      assert Head(a, d.replica) <= Head(b, d.replica);
      if d.counter < Head(b, d.replica) {
        assert d in b.log || d in from.gone;
      }
    }
    forall d | d in c.log && d !in a.log
      ensures d in from.log && c.log[d] == from.log[d] && Head(a, d.replica) <= d.counter < Head(from, d.replica)
    {
      assert Head(a, d.replica) <= Head(b, d.replica);
    }
  }

  lemma MirrorReplicaSafe(pass: Pass, from: Blobs, r: Replica)
    requires pass.ok
    ensures var after := MirrorReplica(pass, from, r);
            Safe(from, pass.to, after.to) && after.to.snapshot == pass.to.snapshot && after.to.down == pass.to.down &&
            (forall q :: q != r ==> HeadCount(after.to, q) == HeadCount(pass.to, q))
  {
    if HeadPointer(r) !in from.down && HeadCount(from, r).Some? && HeadPointer(r) !in pass.to.down {
      var toHead := Head(pass.to, r);
      var head := Max(toHead, HeadCount(from, r).value);
      CopyLeavesRest(pass, from, r, toHead, head);
      GapIsSafe(pass, from, r, toHead, head);
    }
  }

  /** The target with objects of one gap added. */
  ghost predicate Copied(from: Blobs, to: Blobs, mid: Blobs, r: Replica, n: nat, head: nat) {
    mid.heads == to.heads && mid.down == to.down && mid.snapshot == to.snapshot &&
    (forall d :: d in to.log ==> d in mid.log && mid.log[d] == to.log[d]) &&
    forall d :: d in mid.log && d !in to.log ==>
      d.replica == r && n <= d.counter < head && d in from.log && mid.log[d] == from.log[d]
  }

  lemma CopiedIsSafe(from: Blobs, to: Blobs, mid: Blobs, r: Replica, head: nat)
    requires Copied(from, to, mid, r, Head(to, r), head) && head == Max(Head(to, r), Head(from, r))
    ensures Safe(from, to, mid)
  {
    assert forall q :: Head(mid, q) == Head(to, q);
  }

  /** The head goes up to the end of the run that was copied. */
  lemma RaisedIsSafe(from: Blobs, to: Blobs, mid: Blobs, r: Replica, head: nat, cap: nat)
    requires Copied(from, to, mid, r, Head(to, r), head) && head == Max(Head(to, r), Head(from, r))
    requires Head(to, r) < cap <= head <= Decimal.U64_MAX
    requires forall k :: Head(to, r) <= k < cap ==> Dot(r, k) in mid.log || Dot(r, k) in from.gone
    ensures Safe(from, to, mid.(heads := mid.heads[r := Decimal.Print(cap)]))
  {
    var after := mid.(heads := mid.heads[r := Decimal.Print(cap)]);
    Decimal.ParseOfPrint(cap);
    assert Head(after, r) == cap && forall q :: q != r ==> Head(after, q) == Head(to, q);
    CopiedIsSafe(from, to, mid, r, head);
    forall d: Dot | Head(to, d.replica) <= d.counter < Head(after, d.replica)
      ensures d in after.log || d in from.gone
    {
      assert d == Dot(r, d.counter);
    }
  }

  lemma GapIsSafe(pass: Pass, from: Blobs, r: Replica, toHead: nat, head: nat)
    requires pass.ok && HeadPointer(r) !in from.down && HeadCount(from, r).Some? && HeadPointer(r) !in pass.to.down
    requires toHead == Head(pass.to, r) && head == Max(toHead, HeadCount(from, r).value)
    ensures Safe(from, pass.to, MirrorReplica(pass, from, r).to)
  {
    CopyLeavesRest(pass, from, r, toHead, head);
    CopyAdds(pass, from, r, toHead, head);
    var gap := CopyGap(pass, from, r, toHead, head);
    assert Copied(from, pass.to, gap.pass.to, r, toHead, head);
    if gap.pass.ok && gap.cap > toHead {
      RaisedIsSafe(from, pass.to, gap.pass.to, r, head, gap.cap);
    } else {
      CopiedIsSafe(from, pass.to, gap.pass.to, r, head);
    }
  }

  lemma {:induction false} MirrorAllSafe(pass: Pass, from: Blobs, order: seq<Replica>)
    ensures var after := MirrorAll(pass, from, order);
            Safe(from, pass.to, after.to) && after.to.snapshot == pass.to.snapshot
    decreases order
  {
    if order != [] && pass.ok {
      MirrorReplicaSafe(pass, from, order[0]);
      var next := MirrorReplica(pass, from, order[0]);
      MirrorAllSafe(next, from, order[1..]);
      SafeTransitive(from, pass.to, next.to, MirrorAll(pass, from, order).to);
    }
  }

  /** One pass is safe, even one that fails half way. */
  lemma MirrorIsSafe(from: Blobs, to: Blobs, order: seq<Replica>)
    ensures Safe(from, to, Mirrored(from, to, order).to)
  {
    MirrorAllSafe(Pass(to, 0, true), from, order);
    SafeWithSnapshot(from, to, MirrorAll(Pass(to, 0, true), from, order).to, from.snapshot);
  }

  lemma SafeWithSnapshot(from: Blobs, to: Blobs, to': Blobs, snapshot: Option<Envelope>)
    requires Safe(from, to, to')
    ensures Safe(from, to, to'.(snapshot := snapshot))
  {
    assert forall r :: Head(to'.(snapshot := snapshot), r) == Head(to', r);
  }

  // ----- a second pass -----

  /** Mirroring `r` again would change and copy nothing. */
  ghost predicate Done(from: Blobs, to: Blobs, r: Replica) {
    forall copied :: MirrorReplica(Pass(to, copied, true), from, r) == Pass(to, copied, true)
  }

  lemma MirrorReplicaIsDone(pass: Pass, from: Blobs, r: Replica)
    requires pass.ok && MirrorReplica(pass, from, r).ok
    ensures Done(from, MirrorReplica(pass, from, r).to, r)
  {
    if HeadCount(from, r).Some? {
      var toHead := Head(pass.to, r);
      var head := Max(toHead, HeadCount(from, r).value);
      CopyLeavesRest(pass, from, r, toHead, head);
      CopyStops(pass, from, r, toHead, head);
      var gap := CopyGap(pass, from, r, toHead, head);
      Decimal.ParseOfPrint(gap.cap);
      assert Head(MirrorReplica(pass, from, r).to, r) == gap.cap;
    }
  }

  /** Being done with `r` depends only on `r`'s head in the target. */
  lemma DoneFrames(from: Blobs, to: Blobs, to': Blobs, r: Replica)
    requires Done(from, to, r) && HeadCount(to', r) == HeadCount(to, r) && to'.down == to.down
    ensures Done(from, to', r)
  {
    forall copied
      ensures MirrorReplica(Pass(to', copied, true), from, r) == Pass(to', copied, true)
    {
      assert MirrorReplica(Pass(to, copied, true), from, r) == Pass(to, copied, true);
      if HeadCount(from, r).Some? && HeadPointer(r) !in from.down {
        var toHead := Head(to, r);
        var head := Max(toHead, HeadCount(from, r).value);
        CopyLeavesRest(Pass(to, copied, true), from, r, toHead, head);
        DoneStopsAtOnce(to, from, r, copied);
      }
    }
  }

  /** A finished replica copies nothing because its gap is empty or starts with a missing object. */
  lemma DoneStopsAtOnce(to: Blobs, from: Blobs, r: Replica, copied: nat)
    requires Done(from, to, r) && HeadCount(from, r).Some? && HeadPointer(r) !in from.down
    requires HeadPointer(r) !in to.down
    ensures var d := Dot(r, Head(to, r));
            Head(to, r) >= HeadCount(from, r).value || (LogObject(d) !in from.down && d !in from.log && d !in from.gone)
  {
    var pass := Pass(to, copied, true);
    assert MirrorReplica(pass, from, r) == pass;
    var n := Head(to, r);
    var head := Max(n, HeadCount(from, r).value);
    var gap := CopyGap(pass, from, r, n, head);
    var d := Dot(r, n);
    if n < head && LogObject(d) !in from.down {
      if d in from.log && LogObject(d) !in to.down {
        CopyCounts(pass.(to := Stored(to, d, from.log[d]), copied := copied + 1), from, r, n + 1, head);
      } else if d !in from.log && d in from.gone {
        CopyLeavesRest(pass, from, r, n + 1, head);
        Decimal.ParseOfPrint(gap.cap);
      }
    }
  }

  lemma {:induction false} CopyCounts(pass: Pass, from: Blobs, r: Replica, n: nat, head: nat)
    requires n <= head
    ensures CopyGap(pass, from, r, n, head).pass.copied >= pass.copied
    ensures CopyGap(pass, from, r, n, head).pass.ok ==> pass.ok
    decreases head - n
  {
    var d := Dot(r, n);
    if n < head && LogObject(d) !in from.down {
      if d in from.log && LogObject(d) !in pass.to.down {
        CopyCounts(pass.(to := Stored(pass.to, d, from.log[d]), copied := pass.copied + 1), from, r, n + 1, head);
      } else if d !in from.log && d in from.gone {
        CopyCounts(pass, from, r, n + 1, head);
      }
    }
  }

  lemma {:induction false} MirrorAllIsDone(pass: Pass, from: Blobs, order: seq<Replica>, done: set<Replica>)
    requires pass.ok && MirrorAll(pass, from, order).ok
    requires forall r :: r in done ==> Done(from, pass.to, r)
    ensures forall r :: r in done || r in order ==> Done(from, MirrorAll(pass, from, order).to, r)
    ensures MirrorAll(pass, from, order).to.down == pass.to.down
    decreases order
  {
    if order != [] {
      var next := MirrorReplica(pass, from, order[0]);
      MirrorReplicaSafe(pass, from, order[0]);
      assert next.ok;
      MirrorReplicaIsDone(pass, from, order[0]);
      forall r | r in done && r != order[0]
        ensures Done(from, next.to, r)
      {
        DoneFrames(from, pass.to, next.to, r);
      }
      MirrorAllIsDone(next, from, order[1..], done + {order[0]});
      assert order == [order[0]] + order[1..];
    }
  }

  lemma {:induction false} NothingLeft(to: Blobs, from: Blobs, order: seq<Replica>)
    requires forall r :: r in order ==> Done(from, to, r)
    ensures MirrorAll(Pass(to, 0, true), from, order) == Pass(to, 0, true)
    decreases order
  {
    if order != [] {
      assert Done(from, to, order[0]);
      NothingLeft(to, from, order[1..]);
    }
  }

  /** After a pass that succeeded, a second pass over the same source copies nothing and changes nothing. */
  lemma SecondPassIsIdle(from: Blobs, to: Blobs, order: seq<Replica>, again: seq<Replica>)
    requires Mirrored(from, to, order).ok && forall r :: r in again ==> r in order
    ensures Mirrored(from, Mirrored(from, to, order).to, again) == Pass(Mirrored(from, to, order).to, 0, true)
  {
    var mid := MirrorAll(Pass(to, 0, true), from, order);
    MirrorAllIsDone(Pass(to, 0, true), from, order, {});
    var to' := Mirrored(from, to, order).to;
    forall r | r in again
      ensures Done(from, to', r)
    {
      DoneFrames(from, mid.to, to', r);
    }
    NothingLeft(to', from, again);
  }

  // ----- up, then down -----

  predicate Readable(s: Blobs) {
    forall r :: r in s.heads ==> HeadCount(s, r).Some?
  }

  /** Nothing fails, and heads decode. */
  predicate Orderly(s: Blobs) {
    s.down == {} && Readable(s)
  }

  /** An object the source's head shows, and the target's does not. */
  predicate Newer(from: Blobs, to: Blobs, d: Dot) {
    d in from.log && Head(to, d.replica) <= d.counter < Head(from, d.replica)
  }

  /** Every dot between two heads is present or reclaimed in `from`. */
  ghost predicate Reaches(from: Blobs, to: Blobs) {
    forall d: Dot :: Head(to, d.replica) <= d.counter < Head(from, d.replica) ==> d in from.log || d in from.gone
  }

  lemma {:induction false} CopyFinishes(pass: Pass, from: Blobs, r: Replica, n: nat, head: nat)
    requires n <= head && pass.ok && from.down == {} && pass.to.down == {}
    requires forall k :: n <= k < head ==> Dot(r, k) in from.log || Dot(r, k) in from.gone
    ensures var gap := CopyGap(pass, from, r, n, head); gap.pass.ok && gap.cap == head
    decreases head - n
  {
    if n < head {
      var d := Dot(r, n);
      if d in from.log {
        CopyFinishes(pass.(to := Stored(pass.to, d, from.log[d]), copied := pass.copied + 1), from, r, n + 1, head);
      } else {
        CopyFinishes(pass, from, r, n + 1, head);
      }
    }
  }

  lemma MirrorReplicaFinishes(pass: Pass, from: Blobs, r: Replica)
    requires pass.ok && Orderly(from) && Reaches(from, pass.to) && pass.to.down == {} && r in from.heads
    ensures var after := MirrorReplica(pass, from, r);
            after.ok && after.to.down == {} && Head(after.to, r) == Max(Head(pass.to, r), Head(from, r)) &&
            (forall d: Dot :: Newer(from, pass.to, d) && d.replica == r ==> d in after.to.log)
  {
    var toHead := Head(pass.to, r);
    var head := Max(toHead, HeadCount(from, r).value);
    forall k | toHead <= k < head
      ensures Dot(r, k) in from.log || Dot(r, k) in from.gone
    {
      assert Dot(r, k).counter < Head(from, Dot(r, k).replica);
    }
    CopyFinishes(pass, from, r, toHead, head);
    CopyAdds(pass, from, r, toHead, head);
    CopyLeavesRest(pass, from, r, toHead, head);
    var gap := CopyGap(pass, from, r, toHead, head);
    Decimal.ParseOfPrint(gap.cap);
    forall d | Newer(from, pass.to, d) && d.replica == r
      ensures d in gap.pass.to.log
    {
      assert d == Dot(r, d.counter);
    }
  }

  /** What an unhindered pass leaves: every head at the larger count, every newer object copied. */
  lemma {:induction false} MirrorAllFinishes(pass: Pass, from: Blobs, order: seq<Replica>)
    requires pass.ok && Orderly(from) && Reaches(from, pass.to) && pass.to.down == {}
    requires forall i :: 0 <= i < |order| ==> order[i] in from.heads
    requires forall i, j :: 0 <= i < j < |order| ==> order[i] != order[j]
    ensures var after := MirrorAll(pass, from, order);
            after.ok && Finished(from, pass.to, after.to, order)
    decreases order
  {
    if order != [] {
      var r, rest := order[0], order[1..];
      var next := MirrorReplica(pass, from, r);
      MirrorReplicaSafe(pass, from, r);
      MirrorReplicaFinishes(pass, from, r);
      assert Reaches(from, next.to);
      assert order == [r] + rest;
      assert r !in rest;
      MirrorAllFinishes(next, from, rest);
      MirrorAllSafe(next, from, rest);
      FinishedMore(from, pass.to, next.to, MirrorAll(next, from, rest).to, r, rest);
    }
  }

  /** These replicas' heads are at the larger count and their newer objects copied; the other heads are as before. */
  ghost predicate Finished(from: Blobs, to: Blobs, to': Blobs, order: seq<Replica>) {
    (forall r :: r in order ==> Head(to', r) == Max(Head(to, r), Head(from, r))) &&
    (forall r :: r !in order ==> Head(to', r) == Head(to, r)) &&
    (forall d: Dot :: Newer(from, to, d) && d.replica in order ==> d in to'.log)
  }

  lemma FinishedMore(from: Blobs, to: Blobs, next: Blobs, to': Blobs, r: Replica, rest: seq<Replica>)
    requires Finished(from, to, next, [r]) && Finished(from, next, to', rest) && Safe(from, next, to') && r !in rest
    ensures Finished(from, to, to', [r] + rest)
  {
    forall d | Newer(from, to, d) && d.replica in [r] + rest
      ensures d in to'.log
    {
      if d.replica == r { assert d in next.log; } else { assert Newer(from, next, d); }
    }
  }

  lemma UnhinderedPass(from: Blobs, to: Blobs, order: seq<Replica>)
    requires Orderly(from) && Reaches(from, to) && to.down == {} && C.Lists(order, from.heads.Keys)
    ensures var after := Mirrored(from, to, order);
            after.ok && after.to.down == {} &&
            (forall r :: Head(after.to, r) == Max(Head(to, r), Head(from, r))) &&
            (forall d: Dot :: Newer(from, to, d) ==> d in after.to.log)
  {
    MirrorAllFinishes(Pass(to, 0, true), from, order);
    MirrorAllIsDone(Pass(to, 0, true), from, order, {});
    var mid := MirrorAll(Pass(to, 0, true), from, order).to;
    assert forall r :: Head(mid.(snapshot := from.snapshot), r) == Head(mid, r);
    assert forall r :: r !in from.heads ==> Head(from, r) == 0;
  }

  lemma HeadStaysReadable(pass: Pass, from: Blobs, r: Replica)
    requires Readable(pass.to)
    ensures Readable(MirrorReplica(pass, from, r).to)
  {
    if HeadCount(from, r).Some? {
      var toHead := Head(pass.to, r);
      var head := Max(toHead, HeadCount(from, r).value);
      CopyLeavesRest(pass, from, r, toHead, head);
      var gap := CopyGap(pass, from, r, toHead, head);
      Decimal.ParseOfPrint(gap.cap);
      assert gap.cap <= Decimal.U64_MAX;
      assert gap.pass.to.heads == pass.to.heads;
    }
  }

  lemma {:induction false} HeadsStayReadable(pass: Pass, from: Blobs, order: seq<Replica>)
    requires Readable(pass.to)
    ensures Readable(MirrorAll(pass, from, order).to)
    decreases order
  {
    if order != [] && pass.ok {
      HeadStaysReadable(pass, from, order[0]);
      HeadsStayReadable(MirrorReplica(pass, from, order[0]), from, order[1..]);
    }
  }

  ghost predicate Agree(a: Blobs, b: Blobs) {
    forall d :: d in a.log && d in b.log ==> a.log[d] == b.log[d]
  }

  /** Every dot below a head is present or reclaimed. */
  ghost predicate Solid(s: Blobs) {
    Orderly(s) && forall d: Dot :: d.counter < Head(s, d.replica) ==> d in s.log || d in s.gone
  }

  lemma UpPassReaches(local: Blobs, remote: Blobs, to: Blobs)
    requires Solid(remote) && forall r :: Head(to, r) == Max(Head(remote, r), Head(local, r))
    requires forall d :: d in remote.log || d in remote.gone ==> d in to.log || d in to.gone
    ensures Reaches(to, local)
  {
    forall d: Dot | Head(local, d.replica) <= d.counter < Head(to, d.replica)
      ensures d in to.log || d in to.gone
    {
      assert d.counter < Head(remote, d.replica);
    }
  }

  lemma UpPass(local: Blobs, remote: Blobs, up: seq<Replica>)
    requires Solid(local) && Solid(remote) && C.Lists(up, local.heads.Keys)
    ensures Orderly(Mirrored(local, remote, up).to) && Reaches(Mirrored(local, remote, up).to, local)
  {
    var remote' := Mirrored(local, remote, up).to;
    var mid := MirrorAll(Pass(remote, 0, true), local, up).to;
    assert Reaches(local, remote);
    UnhinderedPass(local, remote, up);
    assert remote' == mid.(snapshot := remote'.snapshot);
    assert Readable(remote') by {
      HeadsStayReadable(Pass(remote, 0, true), local, up);
      assert forall r :: HeadCount(remote', r) == HeadCount(mid, r);
    }
    forall d | d in remote.log || d in remote.gone
      ensures d in remote'.log || d in remote'.gone
    {
      MirrorAllKeepsGone(Pass(remote, 0, true), local, up, d);
    }
    UpPassReaches(local, remote, remote');
  }

  /** What the target had reclaimed stays so, unless it is copied back. */
  lemma {:induction false} CopyKeepsGone(pass: Pass, from: Blobs, r: Replica, n: nat, head: nat, d: Dot)
    requires n <= head && d in pass.to.gone
    ensures var gap := CopyGap(pass, from, r, n, head); d in gap.pass.to.gone || d in gap.pass.to.log
    decreases head - n
  {
    var e := Dot(r, n);
    if n < head && LogObject(e) !in from.down {
      if e in from.log && LogObject(e) !in pass.to.down {
        var next := pass.(to := Stored(pass.to, e, from.log[e]), copied := pass.copied + 1);
        if d in next.to.gone {
          CopyKeepsGone(next, from, r, n + 1, head, d);
        } else {
          CopyAdds(next, from, r, n + 1, head);
        }
      } else if e !in from.log && e in from.gone {
        CopyKeepsGone(pass, from, r, n + 1, head, d);
      }
    }
  }

  lemma {:induction false} MirrorAllKeepsGone(pass: Pass, from: Blobs, order: seq<Replica>, d: Dot)
    requires d in pass.to.gone || d in pass.to.log
    ensures var after := MirrorAll(pass, from, order); d in after.to.gone || d in after.to.log
    decreases order
  {
    if order != [] && pass.ok {
      var r := order[0];
      var next := MirrorReplica(pass, from, r);
      MirrorReplicaSafe(pass, from, r);
      if HeadCount(from, r).Some? && d in pass.to.gone {
        var toHead := Head(pass.to, r);
        CopyKeepsGone(pass, from, r, toHead, Max(toHead, HeadCount(from, r).value), d);
      }
      MirrorAllKeepsGone(next, from, order[1..], d);
    }
  }

  /** Up and then down: equal heads, and below them equal logs outside what either store has reclaimed. An object above
      a head that lags, the state a crash between entry and head leaves, is compared once a head has reached it. */
  lemma UpThenDown(local: Blobs, remote: Blobs, up: seq<Replica>, down: seq<Replica>)
    requires Solid(local) && Solid(remote) && Agree(local, remote)
    requires C.Lists(up, local.heads.Keys) && C.Lists(down, Mirrored(local, remote, up).to.heads.Keys)
    ensures var remote' := Mirrored(local, remote, up).to;
            var local' := Mirrored(remote', local, down).to;
            (forall r :: Head(local', r) == Head(remote', r) == Max(Head(local, r), Head(remote, r))) &&
            (forall d: Dot :: d.counter < Head(local', d.replica) && d !in local.gone && d !in remote.gone ==>
               (d in local'.log <==> d in remote'.log) && (d in local'.log ==> local'.log[d] == remote'.log[d]))
  {
    var remote' := Mirrored(local, remote, up).to;
    UnhinderedPass(local, remote, up);
    MirrorIsSafe(local, remote, up);
    UpPass(local, remote, up);
    UnhinderedPass(remote', local, down);
    MirrorIsSafe(remote', local, down);
    var local' := Mirrored(remote', local, down).to;
    forall d: Dot | d.counter < Head(local', d.replica) && d !in local.gone && d !in remote.gone
      ensures (d in local'.log <==> d in remote'.log) && (d in local'.log ==> local'.log[d] == remote'.log[d])
    {
      LogsMeet(local, remote, remote', local', d);
    }
  }

  lemma LogsMeet(local: Blobs, remote: Blobs, remote': Blobs, local': Blobs, d: Dot)
    requires Solid(local) && Solid(remote) && Agree(local, remote) && d !in local.gone && d !in remote.gone
    requires Safe(local, remote, remote') && Safe(remote', local, local')
    requires Newer(local, remote, d) ==> d in remote'.log
    requires Newer(remote', local, d) ==> d in local'.log
    requires d.counter < Head(remote', d.replica) == Max(Head(local, d.replica), Head(remote, d.replica))
    ensures (d in local'.log <==> d in remote'.log) && (d in local'.log ==> local'.log[d] == remote'.log[d])
  {
    if d in local.log {
      if d.counter < Head(remote, d.replica) {
        assert d in remote.log;
      } else {
        assert Newer(local, remote, d);
      }
    }
    if d in remote'.log && d.counter < Head(local, d.replica) {
      assert d in local.log;
    }
  }
}
