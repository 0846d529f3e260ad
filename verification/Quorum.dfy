/**
  Quorums: the set-based requirement a privileged change must meet, and the list-and-loop tallies of the chain, which
  are proved to decide exactly that requirement.
*/
module Quorum {
  import opened Wrappers
  import opened Bytes
  import opened Signing

  // ----- the specification: requirements over sets -----

  datatype Requirement =
    | Sole(key: Key)
    | Any(keys: set<Key>)
    | All(keys: set<Key>)
    | Threshold(m: nat, keys: set<Key>)
    | Either(left: Requirement, right: Requirement)

  /** `Requirement::satisfied_by`. */
  predicate SatisfiedBy(r: Requirement, approvers: set<Key>) {
    match r
    case Sole(key) => key in approvers
    case Any(keys) => exists k :: k in keys && k in approvers
    case All(keys) => keys != {} && forall k :: k in keys ==> k in approvers
    case Threshold(m, keys) => |keys * approvers| >= m
    case Either(left, right) => SatisfiedBy(left, approvers) || SatisfiedBy(right, approvers)
  }

  lemma SubsetSize(a: set<Key>, b: set<Key>)
    requires a <= b
    ensures |a| <= |b|
  {
    assert b == a + (b - a) && a !! b - a;
  }

  /** More approvers never undo an approval. */
  lemma {:induction false} MoreApprovers(r: Requirement, fewer: set<Key>, more: set<Key>)
    requires fewer <= more && SatisfiedBy(r, fewer)
    ensures SatisfiedBy(r, more)
  {
    match r
    case Threshold(m, keys) => SubsetSize(keys * fewer, keys * more);
    case Either(left, right) =>
      if SatisfiedBy(left, fewer) { MoreApprovers(left, fewer, more); } else { MoreApprovers(right, fewer, more); }
    case _ =>
  }

  // ----- the tallies -----

  predicate Approves(e: Engine, key: Key, msg: seq<byte>, sigs: seq<Signature>) {
    exists sig :: sig in sigs && e.verifies(key, msg, sig)
  }

  /** The first occurrence of each key. */
  function Deduped(keys: seq<Key>): (out: seq<Key>)
    ensures forall k :: k in out <==> k in keys
    ensures forall i, j :: 0 <= i < j < |out| ==> out[i] != out[j]
  {
    if keys == [] then []
    else
      var front, last := Deduped(keys[..|keys| - 1]), keys[|keys| - 1];
      assert forall k :: k in keys <==> k in keys[..|keys| - 1] || k == last;
      if last in front then front else front + [last]
  }

  method DedupKeys(keys: seq<Key>) returns (out: seq<Key>)
    ensures out == Deduped(keys)
  {
    out := [];
    for i := 0 to |keys|
      invariant out == Deduped(keys[..i])
    {
      assert keys[..i + 1][..i] == keys[..i];
      var seen := false;
      for j := 0 to |out|
        invariant seen <==> exists n :: 0 <= n < j && out[n] == keys[i]
      {
        if out[j] == keys[i] { seen := true; }
      }
      if !seen { out := out + [keys[i]]; }
    }
    assert keys[..|keys|] == keys;
  }

  predicate VerifyAny(e: Engine, msg: seq<byte>, sigs: seq<Signature>, trusted: seq<Key>) {
    exists sig :: sig in sigs && exists key :: key in trusted && e.verifies(key, msg, sig)
  }

  function CountApproving(e: Engine, msg: seq<byte>, sigs: seq<Signature>, keys: seq<Key>): nat {
    if keys == [] then 0
    else
      CountApproving(e, msg, sigs, keys[..|keys| - 1]) + if Approves(e, keys[|keys| - 1], msg, sigs) then 1 else 0
  }

  function CountValid(e: Engine, msg: seq<byte>, sigs: seq<Signature>, required: seq<Key>): nat {
    CountApproving(e, msg, sigs, Deduped(required))
  }

  predicate VerifyAll(e: Engine, msg: seq<byte>, sigs: seq<Signature>, required: seq<Key>) {
    var keys := Deduped(required);
    keys != [] && forall k :: k in keys ==> Approves(e, k, msg, sigs)
  }

  predicate VerifyThreshold(e: Engine, msg: seq<byte>, sigs: seq<Signature>, required: seq<Key>, m: nat) {
    m == 0 || CountValid(e, msg, sigs, required) >= m
  }

  // ----- the tallies decide the requirements -----

  function SetOf(keys: seq<Key>): set<Key> { set k | k in keys }

  /** Those of some keys under which some signature verifies. */
  function Approvers(e: Engine, msg: seq<byte>, sigs: seq<Signature>, keys: set<Key>): set<Key> {
    set k | k in keys && Approves(e, k, msg, sigs)
  }

  lemma {:induction false} CountIsSetSize(e: Engine, msg: seq<byte>, sigs: seq<Signature>, keys: seq<Key>)
    requires forall i, j :: 0 <= i < j < |keys| ==> keys[i] != keys[j]
    ensures CountApproving(e, msg, sigs, keys) == |Approvers(e, msg, sigs, SetOf(keys))|
  {
    if keys != [] {
      var front, last := keys[..|keys| - 1], keys[|keys| - 1];
      CountIsSetSize(e, msg, sigs, front);
      var before, after := Approvers(e, msg, sigs, SetOf(front)), Approvers(e, msg, sigs, SetOf(keys));
      assert SetOf(keys) == SetOf(front) + {last};
      assert after == if Approves(e, last, msg, sigs) then before + {last} else before;
      assert last !in before;
    }
  }

  /** The count of distinct keys is the size of the approving set: a repeated key or signature counts once. */
  lemma CountIsDistinct(e: Engine, msg: seq<byte>, sigs: seq<Signature>, required: seq<Key>)
    ensures CountValid(e, msg, sigs, required) == |Approvers(e, msg, sigs, SetOf(required))|
  {
    CountIsSetSize(e, msg, sigs, Deduped(required));
    assert SetOf(Deduped(required)) == SetOf(required);
  }

  lemma AnyIsAny(e: Engine, msg: seq<byte>, sigs: seq<Signature>, keys: seq<Key>, universe: set<Key>)
    requires SetOf(keys) <= universe
    ensures VerifyAny(e, msg, sigs, keys) <==> SatisfiedBy(Any(SetOf(keys)), Approvers(e, msg, sigs, universe))
  {
    if VerifyAny(e, msg, sigs, keys) {
      var sig :| sig in sigs && exists key :: key in keys && e.verifies(key, msg, sig);
      var key :| key in keys && e.verifies(key, msg, sig);
      assert key in SetOf(keys) && key in Approvers(e, msg, sigs, universe);
    }
    if SatisfiedBy(Any(SetOf(keys)), Approvers(e, msg, sigs, universe)) {
      var k :| k in SetOf(keys) && k in Approvers(e, msg, sigs, universe);
      var sig :| sig in sigs && e.verifies(k, msg, sig);
    }
  }

  lemma AllIsAll(e: Engine, msg: seq<byte>, sigs: seq<Signature>, keys: seq<Key>, universe: set<Key>)
    requires SetOf(keys) <= universe
    ensures VerifyAll(e, msg, sigs, keys) <==> SatisfiedBy(All(SetOf(keys)), Approvers(e, msg, sigs, universe))
  {
    if SetOf(keys) != {} {
      var k :| k in SetOf(keys);
      assert k in Deduped(keys);
    }
    if Deduped(keys) != [] { assert Deduped(keys)[0] in SetOf(keys); }
    forall k | k in SetOf(keys)
      ensures k in Approvers(e, msg, sigs, universe) <==> Approves(e, k, msg, sigs)
    {
    }
    assert forall k :: k in SetOf(keys) <==> k in Deduped(keys);
  }

  lemma ThresholdIsThreshold(e: Engine, msg: seq<byte>, sigs: seq<Signature>, keys: seq<Key>, m: nat, universe: set<Key>)
    requires SetOf(keys) <= universe
    ensures VerifyThreshold(e, msg, sigs, keys, m) <==>
            SatisfiedBy(Threshold(m, SetOf(keys)), Approvers(e, msg, sigs, universe))
  {
    CountIsDistinct(e, msg, sigs, keys);
    assert SetOf(keys) * Approvers(e, msg, sigs, universe) == Approvers(e, msg, sigs, SetOf(keys));
  }
}
