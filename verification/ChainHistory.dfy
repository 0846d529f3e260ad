/**
  Histories are determined by their heads, and a client may forget what lies below a checkpoint: walking on from the
  re-adopted checkpoint gives the anchor of the whole walk.
*/
module ChainHistory {
  import opened Wrappers
  import opened Bytes
  import opened Signing
  import opened Quorum
  import opened Chain
  import opened ChainWalks

  // ----- one head, one history -----

  /** Some document of each list: different signed bytes, one digest. Nobody should ever be able to produce these. */
  ghost predicate Collides(e: Engine, ones: seq<Doc>, others: seq<Doc>) {
    exists i, j :: 0 <= i < |ones| && 0 <= j < |others| &&
      SigningBytes(e, ones[i]) != SigningBytes(e, others[j]) && HashOf(e, ones[i]) == HashOf(e, others[j])
  }

  ghost predicate AgreeOnSigned(ones: seq<Doc>, others: seq<Doc>) {
    |ones| == |others| && forall i :: 0 <= i < |ones| ==> SameSigned(ones[i], others[i])
  }

  ghost predicate AllFitting(e: Engine, docs: seq<Doc>) {
    forall i :: 0 <= i < |docs| ==> Fits(e, docs[i])
  }

  /** An accepted walk that is not empty ends in its last document, chained onto what came before. */
  lemma LastHop(e: Engine, prior: Anchor, hops: seq<Doc>)
    requires hops != [] && VerifyWalk(e, prior, hops).Ok?
    ensures VerifyWalk(e, prior, hops) == Ok(AnchorFrom(e, hops[|hops| - 1]))
    ensures VerifyWalk(e, prior, hops[..|hops| - 1]).Ok?
    ensures hops[|hops| - 1].prev == VerifyWalk(e, prior, hops[..|hops| - 1]).value.hash
    ensures hops[|hops| - 1].revision == prior.revision + |hops|
    ensures StructureFault(e, hops[|hops| - 1]).None?
  {
    WalkCounts(e, prior, hops[..|hops| - 1]);
  }

  lemma CollidesGrows(e: Engine, ones: seq<Doc>, others: seq<Doc>)
    requires ones != [] && others != [] && Collides(e, ones[..|ones| - 1], others[..|others| - 1])
    ensures Collides(e, ones, others)
  {
    var a, b := ones[..|ones| - 1], others[..|others| - 1];
    var i, j :| 0 <= i < |a| && 0 <= j < |b| &&
      SigningBytes(e, a[i]) != SigningBytes(e, b[j]) && HashOf(e, a[i]) == HashOf(e, b[j]);
    assert a[i] == ones[i] && b[j] == others[j];
  }

  /**
    Two accepted walks from one anchor that end in the same digest agree hop by hop on everything signed, or between
    them they exhibit a collision of the hash.
  */
  lemma {:induction false} HistoryIsUnique(e: Engine, prior: Anchor, ones: seq<Doc>, others: seq<Doc>)
    requires InjectiveEncodings(e) && AllFitting(e, ones) && AllFitting(e, others)
    requires ones != [] && others != []
    requires VerifyWalk(e, prior, ones).Ok? && VerifyWalk(e, prior, others).Ok?
    requires VerifyWalk(e, prior, ones).value.hash == VerifyWalk(e, prior, others).value.hash
    ensures AgreeOnSigned(ones, others) || Collides(e, ones, others)
    decreases |ones|
  {
    var a, b := ones[|ones| - 1], others[|others| - 1];
    LastHop(e, prior, ones);
    LastHop(e, prior, others);
    if SigningBytes(e, a) == SigningBytes(e, b) {
      SigningBytesInjective(e, a, b);
      var front, front' := ones[..|ones| - 1], others[..|others| - 1];
      assert |ones| == |others|;
      if front != [] {
        HistoryIsUnique(e, prior, front, front');
        if Collides(e, front, front') { CollidesGrows(e, ones, others); }
      }
      if front == [] || AgreeOnSigned(front, front') { AgreementGrows(ones, others); }
    } else {
      assert Collides(e, ones, others);
    }
  }

  lemma AgreementGrows(ones: seq<Doc>, others: seq<Doc>)
    requires ones != [] && |ones| == |others| && AgreeOnSigned(ones[..|ones| - 1], others[..|others| - 1])
    requires SameSigned(ones[|ones| - 1], others[|others| - 1])
    ensures AgreeOnSigned(ones, others)
  {
    var a, b := ones[..|ones| - 1], others[..|others| - 1];
    forall i | 0 <= i < |ones| ensures SameSigned(ones[i], others[i]) {
      if i < |a| { assert ones[i] == a[i] && others[i] == b[i]; }
    }
  }

  // ----- re-anchoring -----

  /** A walk can be taken in two parts. */
  lemma {:induction false} WalkSplits(e: Engine, prior: Anchor, first: seq<Doc>, rest: seq<Doc>)
    requires VerifyWalk(e, prior, first).Ok?
    ensures VerifyWalk(e, prior, first + rest) == VerifyWalk(e, VerifyWalk(e, prior, first).value, rest)
    decreases |rest|
  {
    if rest == [] {
      assert first + rest == first;
    } else {
      WalkSplits(e, prior, first, rest[..|rest| - 1]);
      assert (first + rest)[..|first + rest| - 1] == first + rest[..|rest| - 1];
    }
  }

  lemma SameSignedSameAnchor(e: Engine, a: Doc, b: Doc)
    requires SameSigned(a, b)
    ensures AnchorFrom(e, a) == AnchorFrom(e, b)
  {
    assert SigningBytes(e, a) == SigningBytes(e, b);
  }

  /** The walk's own document is re-adopted at its pin exactly when one of its own signers signed it. */
  lemma PinAcceptsOwnDocument(e: Engine, prior: Anchor, hops: seq<Doc>, k: nat)
    requires VerifyWalk(e, prior, hops).Ok? && 0 < k <= |hops| && VerifyWalk(e, prior, hops[..k]).Ok?
    ensures var pin, doc := AnchorAt(e, prior, hops, k), hops[k - 1];
      BootstrapPinned(e, doc, pin.group, pin.revision, pin.hash) ==
        if SignedBy(e, doc, KeysOf(DerivedSigners(e, doc.members))) then Ok(pin) else Err(BadBootstrap)
  {
    LastHop(e, prior, hops[..k]);
    assert hops[..k][k - 1] == hops[k - 1];
  }

  /** Whatever document is accepted at a walk's pin, going on from it gives exactly what the whole walk gives, unless
      it collides with the walk's own. */
  lemma Reanchor(e: Engine, prior: Anchor, hops: seq<Doc>, k: nat, doc: Doc)
    requires InjectiveEncodings(e) && Fits(e, doc) && AllFitting(e, hops)
    requires VerifyWalk(e, prior, hops).Ok? && 0 < k <= |hops| && VerifyWalk(e, prior, hops[..k]).Ok?
    requires var pin := AnchorAt(e, prior, hops, k); BootstrapPinned(e, doc, pin.group, pin.revision, pin.hash).Ok?
    ensures Collides(e, [doc], hops) ||
      (AnchorFrom(e, doc) == AnchorAt(e, prior, hops, k) &&
       VerifyWalk(e, AnchorFrom(e, doc), hops[k..]) == VerifyWalk(e, prior, hops))
  {
    var own := hops[k - 1];
    LastHop(e, prior, hops[..k]);
    assert hops[..k][k - 1] == own && HashOf(e, [doc][0]) == HashOf(e, own);
    if SigningBytes(e, doc) == SigningBytes(e, own) {
      SigningBytesInjective(e, doc, own);
      SameSignedSameAnchor(e, doc, own);
      WalkSplits(e, prior, hops[..k], hops[k..]);
      assert hops[..k] + hops[k..] == hops;
    } else {
      assert Collides(e, [doc], hops);
    }
  }

  // ----- compaction -----

  predicate Ascending(revisions: seq<u32>) {
    forall i, j :: 0 <= i < j < |revisions| ==> revisions[i] < revisions[j]
  }

  lemma AscendingFrom(first: u32, rest: seq<u32>)
    requires Ascending(rest) && forall x :: x in rest ==> first < x
    ensures Ascending([first] + rest)
  {
    forall i | 0 <= i < |rest| ensures first < rest[i] { assert rest[i] in rest; }
  }

  function Inserted(revisions: seq<u32>, r: u32): (out: seq<u32>)
    requires Ascending(revisions)
    ensures Ascending(out)
    ensures forall x :: x in out <==> x in revisions || x == r
  {
    if revisions == [] then [r]
    else if r < revisions[0] then [r] + revisions
    else if r == revisions[0] then revisions
    else
      var rest := Inserted(revisions[1..], r);
      assert forall x :: x in revisions <==> x == revisions[0] || x in revisions[1..];
      assert forall x :: x in rest ==> revisions[0] < x;
      AscendingFrom(revisions[0], rest);
      [revisions[0]] + rest
  }

  /** `Retained::new`: sorted and deduplicated. */
  function Retained(revisions: seq<u32>): (out: seq<u32>)
    ensures Ascending(out)
    ensures forall x :: x in out <==> x in revisions
  {
    if revisions == [] then []
    else
      assert forall x :: x in revisions <==> x == revisions[0] || x in revisions[1..];
      Inserted(Retained(revisions[1..]), revisions[0])
  }

  datatype Plan = KeepAll | KeepLast(count: nat)

  datatype Compacted = Compacted(checkpoint: u32, prune: seq<u32>)

  /** The greatest revision, if any. */
  function Highest(revisions: seq<u32>): (h: Option<u32>)
    ensures h.None? <==> revisions == []
    ensures h.Some? ==> h.value in revisions && forall x :: x in revisions ==> x <= h.value
  {
    if revisions == [] then None
    else
      var rest := Highest(revisions[1..]);
      assert forall x :: x in revisions <==> x == revisions[0] || x in revisions[1..];
      if rest.Some? && rest.value >= revisions[0] then rest else Some(revisions[0])
  }

  function UpTo(revisions: seq<u32>, limit: int): (out: seq<u32>)
    ensures forall x :: x in out <==> x in revisions && x <= limit
  {
    if revisions == [] then []
    else
      var rest := UpTo(revisions[1..], limit);
      assert forall x :: x in revisions <==> x == revisions[0] || x in revisions[1..];
      if revisions[0] <= limit then [revisions[0]] + rest else rest
  }

  /** Keep the last `count`, but never past the stable revision. */
  function Horizon(head: u32, count: nat, stable: u32): u32 {
    var kept := if count < U32_LIMIT then count else U32_LIMIT - 1;
    var tail := if head >= kept then head - kept else 0;
    if tail <= stable then tail else stable
  }

  function Compact(revisions: seq<u32>, stable: u32, plan: Plan): Option<Compacted> {
    if plan.KeepAll? || Highest(revisions).None? then None
    else
      var horizon := Horizon(Highest(revisions).value, plan.count, stable);
      var checkpoint := Highest(UpTo(revisions, horizon));
      if checkpoint.None? || UpTo(revisions, checkpoint.value - 1) == [] then None
      else Some(Compacted(checkpoint.value, UpTo(revisions, checkpoint.value - 1)))
  }

  /** A checkpoint the policy and the stable cut allow. */
  predicate Allowed(revisions: seq<u32>, stable: u32, plan: Plan, c: u32) {
    plan.KeepLast? && c in revisions && c <= stable &&
    (c == 0 || exists head :: head in revisions && c + plan.count <= head)
  }

  /**
    The checkpoint is the greatest allowed revision and exactly what lies below it goes; there is no compaction
    exactly when no allowed revision has anything below it.
  */
  lemma CompactChoosesGreatest(revisions: seq<u32>, stable: u32, plan: Plan)
    ensures var out := Compact(revisions, stable, plan);
      (out.Some? ==>
        Allowed(revisions, stable, plan, out.value.checkpoint) &&
        (forall c: u32 :: Allowed(revisions, stable, plan, c) ==> c <= out.value.checkpoint) &&
        (forall x :: x in out.value.prune <==> x in revisions && x < out.value.checkpoint) && out.value.prune != []) &&
      (out.None? ==> forall c: u32, x :: Allowed(revisions, stable, plan, c) && x in revisions ==> x >= c)
  {
    var head := Highest(revisions);
    if plan.KeepLast? && head.Some? {
      forall c | c in revisions
        ensures c <= Horizon(head.value, plan.count, stable) <==> Allowed(revisions, stable, plan, c)
      {
        if c + plan.count <= head.value || c == 0 { assert head.value in revisions; }
      }
    }
  }

  /** What is left once the pruned revisions are dropped. */
  function Kept(revisions: seq<u32>, prune: seq<u32>): (out: seq<u32>)
    ensures forall x :: x in out <==> x in revisions && x !in prune
  {
    if revisions == [] then []
    else
      var rest := Kept(revisions[1..], prune);
      assert forall x :: x in revisions <==> x == revisions[0] || x in revisions[1..];
      if revisions[0] in prune then rest else [revisions[0]] + rest
  }

  /** After a compaction the same cut and policy have nothing more to do. */
  lemma CompactOnce(revisions: seq<u32>, stable: u32, plan: Plan)
    requires Compact(revisions, stable, plan).Some?
    ensures Compact(Kept(revisions, Compact(revisions, stable, plan).value.prune), stable, plan) == None
  {
    var out := Compact(revisions, stable, plan).value;
    var kept := Kept(revisions, out.prune);
    CompactChoosesGreatest(revisions, stable, plan);
    CompactChoosesGreatest(kept, stable, plan);
    if Compact(kept, stable, plan).Some? {
      var again := Compact(kept, stable, plan).value;
      HasElement(again.prune);
      assert Allowed(revisions, stable, plan, again.checkpoint);
    }
  }

  lemma HasElement(s: seq<u32>)
    requires s != []
    ensures exists x :: x in s
  {
    assert s[0] in s;
  }

  /** The revisions of a walk's documents, as a client retains them. */
  function RevisionsOf(hops: seq<Doc>): (out: seq<u32>)
    ensures |out| == |hops| && forall i :: 0 <= i < |out| ==> out[i] == hops[i].revision
  {
    if hops == [] then [] else RevisionsOf(hops[..|hops| - 1]) + [hops[|hops| - 1].revision]
  }

  /**
    Compacting a walk loses nothing: the checkpoint is one of its revisions, and from a document accepted at that pin
    the kept tail leads to exactly the anchor of the full walk, unless it collides with the walk's own document.
  */
  lemma CompactionPreservesMeaning(e: Engine, prior: Anchor, hops: seq<Doc>, stable: u32, plan: Plan, doc: Doc)
    requires InjectiveEncodings(e) && Fits(e, doc) && AllFitting(e, hops) && VerifyWalk(e, prior, hops).Ok?
    requires Compact(Retained(RevisionsOf(hops)), stable, plan).Some?
    ensures var k := Compact(Retained(RevisionsOf(hops)), stable, plan).value.checkpoint - prior.revision;
      0 < k <= |hops| && VerifyWalk(e, prior, hops[..k]).Ok? &&
      hops[k - 1].revision == Compact(Retained(RevisionsOf(hops)), stable, plan).value.checkpoint &&
      var pin := AnchorAt(e, prior, hops, k);
      (BootstrapPinned(e, doc, pin.group, pin.revision, pin.hash).Ok? ==>
        Collides(e, [doc], hops) ||
        VerifyWalk(e, AnchorFrom(e, doc), hops[k..]) == VerifyWalk(e, prior, hops))
  {
    var out := Compact(Retained(RevisionsOf(hops)), stable, plan).value;
    CompactChoosesGreatest(Retained(RevisionsOf(hops)), stable, plan);
    var i :| 0 <= i < |hops| && RevisionsOf(hops)[i] == out.checkpoint;
    HopOf(e, prior, hops, i);
    WalkCounts(e, prior, hops[..i + 1]);
    LastHop(e, prior, hops[..i + 1]);
    assert hops[..i + 1][i] == hops[i];
    var pin := AnchorAt(e, prior, hops, i + 1);
    if BootstrapPinned(e, doc, pin.group, pin.revision, pin.hash).Ok? { Reanchor(e, prior, hops, i + 1, doc); }
  }
}
