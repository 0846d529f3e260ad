/**
  What an accepted walk guarantees: well-formed anchors, an authorised signature on every hop, a recovery authority
  that only its holder can replace, rules met in the sense of `Quorum.Requirement`, and no lockout.
*/
module ChainWalks {
  import opened Wrappers
  import opened Bytes
  import opened Signing
  import opened Quorum
  import opened Chain

  /** A founder's role is a signer's role. */
  ghost predicate FoundersSign(e: Engine) {
    forall r :: e.isFounder(r) ==> e.isSigner(r)
  }

  // ----- structure -----

  /** No repeated id, and signers with acceptable, distinct keys. */
  ghost predicate Clean(e: Engine, members: seq<Signer>) {
    forall i :: 0 <= i < |members| ==>
      !DuplicateId(members, i) &&
      (e.isSigner(members[i].role) ==> e.accepts(members[i].key) && !DuplicateKey(e, members, i))
  }

  lemma {:induction false} NoFaultIsClean(e: Engine, members: seq<Signer>, i: nat)
    requires i <= |members|
    ensures MemberFault(e, members, i).None? <==>
      forall j :: i <= j < |members| ==>
        !DuplicateId(members, j) &&
        (e.isSigner(members[j].role) ==> e.accepts(members[j].key) && !DuplicateKey(e, members, j))
    decreases |members| - i
  {
    if i < |members| { NoFaultIsClean(e, members, i + 1); }
  }

  lemma CleanPrefix(e: Engine, members: seq<Signer>, n: nat)
    requires Clean(e, members) && n <= |members|
    ensures Clean(e, members[..n])
  {
    forall i | 0 <= i < n
      ensures !DuplicateId(members[..n], i)
      ensures e.isSigner(members[i].role) ==> e.accepts(members[i].key) && !DuplicateKey(e, members[..n], i)
    {
      assert !DuplicateId(members, i);
      if e.isSigner(members[i].role) { assert !DuplicateKey(e, members, i); }
    }
  }

  ghost predicate DistinctKeys(signers: seq<Signer>) {
    forall i, j :: 0 <= i < j < |signers| ==> signers[i].key != signers[j].key
  }

  lemma {:induction false} DerivedAreDistinct(e: Engine, members: seq<Signer>)
    requires Clean(e, members)
    ensures DistinctKeys(DerivedSigners(e, members))
  {
    if members != [] {
      var n := |members| - 1;
      CleanPrefix(e, members, n);
      DerivedAreDistinct(e, members[..n]);
      var front, last := DerivedSigners(e, members[..n]), members[n];
      if e.isSigner(last.role) {
        assert !DuplicateKey(e, members, n);
        forall i | 0 <= i < |front| ensures front[i].key != last.key {
          assert front[i] in members[..n];
          var j :| 0 <= j < n && members[j] == front[i];
        }
      }
    }
  }

  lemma {:induction false} DerivedKeepsFounders(e: Engine, members: seq<Signer>)
    requires FoundersSign(e)
    ensures Founders(e, DerivedSigners(e, members)) == Founders(e, members)
  {
    if members != [] {
      var front, last := members[..|members| - 1], members[|members| - 1];
      DerivedKeepsFounders(e, front);
      if e.isSigner(last.role) {
        assert (DerivedSigners(e, front) + [last])[..|DerivedSigners(e, front)|] == DerivedSigners(e, front);
      }
    }
  }

  lemma {:induction false} NoFounderCountsZero(e: Engine, signers: seq<Signer>)
    requires forall s :: s in signers ==> !e.isFounder(s.role)
    ensures Founders(e, signers) == 0
  {
    if signers != [] { NoFounderCountsZero(e, signers[..|signers| - 1]); }
  }

  /** One founder, and distinct signer keys. */
  ghost predicate WellFormed(e: Engine, a: Anchor) {
    Founders(e, a.signers) == 1 && DistinctKeys(a.signers)
  }

  lemma SoundDocsAreWellFormed(e: Engine, doc: Doc)
    requires FoundersSign(e) && StructureFault(e, doc).None?
    ensures WellFormed(e, AnchorFrom(e, doc)) && Clean(e, doc.members)
  {
    NoFaultIsClean(e, doc.members, 0);
    DerivedAreDistinct(e, doc.members);
    DerivedKeepsFounders(e, doc.members);
  }

  lemma WellFormedHasFounder(e: Engine, a: Anchor)
    requires WellFormed(e, a)
    ensures FounderOf(e, a.signers).Some?
  {
    if FounderOf(e, a.signers).None? { NoFounderCountsZero(e, a.signers); }
  }

  // ----- the rule as a requirement -----

  function FounderRule(e: Engine, prior: Anchor): Requirement {
    match FounderOf(e, prior.signers)
    case Some(f) => Sole(f.key)
    case None => Any({})
  }

  /** The keys of prior signers that stay unchanged and are not the founder's. */
  function StayingCoOwners(e: Engine, prior: Anchor, cand: seq<Signer>): set<Key> {
    set s | s in prior.signers && FounderRule(e, prior) != Sole(s.key) &&
      forall d :: d in prior.signers && d !in cand ==> d.key != s.key :: s.key
  }

  /** What the prior anchor's rule asks of a change to the candidate's signers. */
  function RuleOf(e: Engine, prior: Anchor, cand: seq<Signer>): Requirement {
    var m, keys := prior.governance.threshold, SetOf(KeysOf(prior.signers));
    if prior.governance.kind == 1 then FounderRule(e, prior)
    else if prior.governance.kind == 2 then Either(FounderRule(e, prior), Threshold(m, StayingCoOwners(e, prior, cand)))
    else if prior.governance.kind == 3 then Threshold(m, keys)
    else Either(FounderRule(e, prior), All(keys))
  }

  /** The prior signers' keys that approve a document. */
  function ApproversOf(e: Engine, prior: Anchor, doc: Doc): set<Key> {
    Approvers(e, SigningBytes(e, doc), doc.signatures, SetOf(KeysOf(prior.signers)))
  }

  lemma KeyInKeys(signers: seq<Signer>, s: Signer)
    requires s in signers
    ensures s.key in KeysOf(signers)
  {
    var i :| 0 <= i < |signers| && signers[i] == s;
    assert KeysOf(signers)[i] == s.key;
  }

  lemma SignerOfKey(signers: seq<Signer>, k: Key) returns (s: Signer)
    requires k in KeysOf(signers)
    ensures s in signers && s.key == k
  {
    var i :| 0 <= i < |signers| && KeysOf(signers)[i] == k;
    s := signers[i];
  }

  lemma FounderApproves(e: Engine, prior: Anchor, msg: seq<byte>, sigs: seq<Signature>)
    ensures var f := FounderOf(e, prior.signers);
      (f.Some? && VerifyAny(e, msg, sigs, [f.value.key])) <==>
      SatisfiedBy(FounderRule(e, prior), Approvers(e, msg, sigs, SetOf(KeysOf(prior.signers))))
  {
    var f := FounderOf(e, prior.signers);
    if f.Some? {
      KeyInKeys(prior.signers, f.value);
      assert SetOf([f.value.key]) == {f.value.key};
      AnyIsAny(e, msg, sigs, [f.value.key], SetOf(KeysOf(prior.signers)));
    }
  }

  lemma CoOwnerStays(e: Engine, prior: Anchor, cand: seq<Signer>, k: Key)
    requires k in CoOwnerKeys(KeysOf(prior.signers), FounderOf(e, prior.signers), KeysOf(Departing(prior.signers, cand)))
    ensures k in StayingCoOwners(e, prior, cand)
  {
    var s := SignerOfKey(prior.signers, k);
    var departing := Departing(prior.signers, cand);
    forall d | d in prior.signers && d !in cand ensures d.key != s.key {
      assert d in departing;
      KeyInKeys(departing, d);
    }
  }

  lemma StayerIsCoOwner(e: Engine, prior: Anchor, cand: seq<Signer>, k: Key)
    requires k in StayingCoOwners(e, prior, cand)
    ensures k in CoOwnerKeys(KeysOf(prior.signers), FounderOf(e, prior.signers), KeysOf(Departing(prior.signers, cand)))
  {
    var departing := Departing(prior.signers, cand);
    var s :| s in prior.signers && s.key == k && FounderRule(e, prior) != Sole(s.key) &&
      forall d :: d in prior.signers && d !in cand ==> d.key != s.key;
    KeyInKeys(prior.signers, s);
    if k in KeysOf(departing) { var d := SignerOfKey(departing, k); }
  }

  lemma CoOwnersAreStaying(e: Engine, prior: Anchor, cand: seq<Signer>)
    ensures SetOf(CoOwnerKeys(KeysOf(prior.signers), FounderOf(e, prior.signers), KeysOf(Departing(prior.signers, cand))))
            == StayingCoOwners(e, prior, cand)
    ensures StayingCoOwners(e, prior, cand) <= SetOf(KeysOf(prior.signers))
  {
    var keys := CoOwnerKeys(KeysOf(prior.signers), FounderOf(e, prior.signers), KeysOf(Departing(prior.signers, cand)));
    forall k | k in SetOf(keys) ensures k in StayingCoOwners(e, prior, cand) { CoOwnerStays(e, prior, cand, k); }
    forall k | k in StayingCoOwners(e, prior, cand) ensures k in SetOf(keys) { StayerIsCoOwner(e, prior, cand, k); }
  }

  lemma EitherIs(left: Requirement, right: Requirement, approvers: set<Key>)
    ensures SatisfiedBy(Either(left, right), approvers) <==> SatisfiedBy(left, approvers) || SatisfiedBy(right, approvers)
  {
  }

  /** The list-and-loop tally decides exactly the set requirement, on the set of approving keys. */
  lemma TallyDecides(e: Engine, prior: Anchor, signers: seq<Signer>, msg: seq<byte>, sigs: seq<Signature>)
    ensures PriorGovernanceMet(e, prior, signers, msg, sigs) <==>
      SatisfiedBy(RuleOf(e, prior, signers), Approvers(e, msg, sigs, SetOf(KeysOf(prior.signers))))
  {
    var keys, m, founder := KeysOf(prior.signers), prior.governance.threshold, FounderOf(e, prior.signers);
    var approvers := Approvers(e, msg, sigs, SetOf(keys));
    FounderApproves(e, prior, msg, sigs);
    if prior.governance.kind == 2 {
      var coOwners := CoOwnerKeys(keys, founder, KeysOf(Departing(prior.signers, signers)));
      CoOwnersAreStaying(e, prior, signers);
      ThresholdIsThreshold(e, msg, sigs, coOwners, m, SetOf(keys));
      EitherIs(FounderRule(e, prior), Threshold(m, SetOf(coOwners)), approvers);
    } else if prior.governance.kind == 3 {
      ThresholdIsThreshold(e, msg, sigs, keys, m, SetOf(keys));
    } else if prior.governance.kind != 1 {
      AllIsAll(e, msg, sigs, keys, SetOf(keys));
      EitherIs(FounderRule(e, prior), All(SetOf(keys)), approvers);
    }
  }

  lemma TallyRefinesRequirement(e: Engine, prior: Anchor, cand: Doc)
    ensures MeetsPriorRule(e, prior, cand) <==>
            SatisfiedBy(RuleOf(e, prior, DerivedSigners(e, cand.members)), ApproversOf(e, prior, cand))
  {
    TallyDecides(e, prior, DerivedSigners(e, cand.members), SigningBytes(e, cand), cand.signatures);
  }

  /** A document that fits after an anchor, whoever signed it. */
  predicate Chained(e: Engine, prior: Anchor, cand: Doc) {
    cand.group == prior.group && StructureFault(e, cand).None? && cand.revision == prior.revision + 1 &&
    cand.prev == prior.hash
  }

  /** What acceptance comes to. */
  lemma AcceptedWhen(e: Engine, prior: Anchor, cand: Doc)
    ensures VerifyTransition(e, prior, cand).Ok? <==>
        Chained(e, prior, cand) &&
        (if Privileged(e, prior, cand) then
           (RemovesItself(e, prior, cand) || MeetsPriorRule(e, prior, cand)) &&
           RuleIsSatisfiable(cand.governance, |DerivedSigners(e, cand.members)|)
         else SignedBy(e, cand, KeysOf(prior.signers))) &&
        (RotatesRecovery(prior, cand) ==> SignedBy(e, cand, [prior.recovery.value]))
    ensures VerifyTransition(e, prior, cand).Ok? ==> VerifyTransition(e, prior, cand).value == AnchorFrom(e, cand)
  {
  }

  /** A change of signers or rule that is accepted met the prior rule, unless it is one co-owner leaving. */
  lemma RuleChangesMeetTheRule(e: Engine, prior: Anchor, cand: Doc)
    requires VerifyTransition(e, prior, cand).Ok? && Privileged(e, prior, cand) && !RemovesItself(e, prior, cand)
    ensures SatisfiedBy(RuleOf(e, prior, DerivedSigners(e, cand.members)), ApproversOf(e, prior, cand))
  {
    AcceptedWhen(e, prior, cand);
    TallyRefinesRequirement(e, prior, cand);
  }

  // ----- more signatures -----

  lemma MoreApprove(e: Engine, msg: seq<byte>, fewer: seq<Signature>, more: seq<Signature>, keys: set<Key>)
    requires forall s :: s in fewer ==> s in more
    ensures Approvers(e, msg, fewer, keys) <= Approvers(e, msg, more, keys)
  {
  }

  /** The rule reads only the set of approving keys, so it survives added and repeated signatures. */
  lemma MoreSignaturesMeetTheRule(e: Engine, prior: Anchor, cand: Doc, more: seq<Signature>)
    requires forall s :: s in cand.signatures ==> s in more
    requires MeetsPriorRule(e, prior, cand)
    ensures MeetsPriorRule(e, prior, cand.(signatures := more))
  {
    var grown := cand.(signatures := more);
    var signers := DerivedSigners(e, cand.members);
    TallyRefinesRequirement(e, prior, cand);
    TallyRefinesRequirement(e, prior, grown);
    MoreApprove(e, SigningBytes(e, cand), cand.signatures, more, SetOf(KeysOf(prior.signers)));
    assert SigningBytes(e, grown) == SigningBytes(e, cand);
    MoreApprovers(RuleOf(e, prior, signers), ApproversOf(e, prior, cand), ApproversOf(e, prior, grown));
  }

  /** Adding signatures never turns an accepted document into a rejected one, nor changes the anchor it gives. */
  lemma MoreSignaturesNeverHurt(e: Engine, prior: Anchor, cand: Doc, more: seq<Signature>)
    requires forall s :: s in cand.signatures ==> s in more
    requires VerifyTransition(e, prior, cand).Ok?
    ensures VerifyTransition(e, prior, cand.(signatures := more)) == VerifyTransition(e, prior, cand)
  {
    var grown := cand.(signatures := more);
    SignaturesAreNotSigned(e, prior, cand, more);
    if SignedBy(e, cand, KeysOf(prior.signers)) { MoreSign(e, cand, more, KeysOf(prior.signers)); }
    if RotatesRecovery(prior, cand) { MoreSign(e, cand, more, [prior.recovery.value]); }
    if Privileged(e, prior, cand) {
      if MeetsPriorRule(e, prior, cand) { MoreSignaturesMeetTheRule(e, prior, cand, more); }
      assert RemovesItself(e, prior, cand) ==> RemovesItself(e, prior, grown);
    }
  }

  lemma SignaturesAreNotSigned(e: Engine, prior: Anchor, cand: Doc, more: seq<Signature>)
    ensures var grown := cand.(signatures := more);
      SigningBytes(e, grown) == SigningBytes(e, cand) && StructureFault(e, grown) == StructureFault(e, cand) &&
      Privileged(e, prior, grown) == Privileged(e, prior, cand)
  {
  }

  lemma MoreSign(e: Engine, cand: Doc, more: seq<Signature>, keys: seq<Key>)
    requires (forall s :: s in cand.signatures ==> s in more) && SignedBy(e, cand, keys)
    ensures SignedBy(e, cand.(signatures := more), keys)
  {
    assert SigningBytes(e, cand.(signatures := more)) == SigningBytes(e, cand);
  }

  // ----- authority over whole walks -----

  /** The two rules under which a privileged change may carry no signature at all. */
  predicate VacuousRule(g: Governance) {
    (g.kind == 2 || g.kind == 3) && g.threshold == 0
  }

  lemma ApproverSigns(e: Engine, prior: Anchor, doc: Doc)
    requires ApproversOf(e, prior, doc) != {}
    ensures SignedBy(e, doc, KeysOf(prior.signers))
  {
    var k :| k in ApproversOf(e, prior, doc);
    var sig :| sig in doc.signatures && e.verifies(k, SigningBytes(e, doc), sig);
  }

  lemma NobodySatisfiesSets(m: nat, keys: set<Key>)
    ensures SatisfiedBy(Threshold(m, keys), {}) <==> m == 0
    ensures !SatisfiedBy(All(keys), {})
  {
    assert keys * {} == {};
  }

  lemma NobodyIsTheFounder(e: Engine, prior: Anchor)
    ensures !SatisfiedBy(FounderRule(e, prior), {})
  {
  }

  /** The prior rule is met without any approving key exactly when it is one of the two vacuous rules. */
  lemma NobodySatisfies(e: Engine, prior: Anchor, signers: seq<Signer>)
    ensures SatisfiedBy(RuleOf(e, prior, signers), {}) <==> VacuousRule(prior.governance)
  {
    var keys, m, staying := SetOf(KeysOf(prior.signers)), prior.governance.threshold, StayingCoOwners(e, prior, signers);
    NobodyIsTheFounder(e, prior);
    if prior.governance.kind == 2 {
      NobodySatisfiesSets(m, staying);
      EitherIs(FounderRule(e, prior), Threshold(m, staying), {});
    } else if prior.governance.kind != 1 {
      NobodySatisfiesSets(m, keys);
      EitherIs(FounderRule(e, prior), All(keys), {});
    }
  }

  lemma RuleWithoutSignatures(e: Engine, prior: Anchor, cand: Doc)
    requires ApproversOf(e, prior, cand) == {}
    ensures MeetsPriorRule(e, prior, cand) <==> VacuousRule(prior.governance)
  {
    TallyRefinesRequirement(e, prior, cand);
    NobodySatisfies(e, prior, DerivedSigners(e, cand.members));
  }

  /** An accepted document is signed under a key of the prior signers, unless the prior rule is vacuous. */
  lemma AcceptedIsSigned(e: Engine, prior: Anchor, cand: Doc)
    requires VerifyTransition(e, prior, cand).Ok? && !VacuousRule(prior.governance)
    ensures SignedBy(e, cand, KeysOf(prior.signers))
  {
    if Privileged(e, prior, cand) {
      if RemovesItself(e, prior, cand) {
        var leaver := Departing(prior.signers, DerivedSigners(e, cand.members))[0];
        KeyInKeys(prior.signers, leaver);
      } else {
        if ApproversOf(e, prior, cand) == {} { RuleWithoutSignatures(e, prior, cand); }
        ApproverSigns(e, prior, cand);
      }
    }
  }

  /** A walk's anchors, the prior one first. */
  function AnchorAt(e: Engine, prior: Anchor, hops: seq<Doc>, i: nat): Anchor
    requires i <= |hops| && VerifyWalk(e, prior, hops[..i]).Ok?
  {
    VerifyWalk(e, prior, hops[..i]).value
  }

  /** Every stretch of an accepted walk from its start is accepted. */
  lemma {:induction false} PrefixIsAccepted(e: Engine, prior: Anchor, hops: seq<Doc>, i: nat)
    requires i <= |hops| && VerifyWalk(e, prior, hops).Ok?
    ensures VerifyWalk(e, prior, hops[..i]).Ok?
    decreases |hops|
  {
    if i < |hops| {
      var front := hops[..|hops| - 1];
      PrefixIsAccepted(e, prior, front, i);
      assert front[..i] == hops[..i];
    } else {
      assert hops[..i] == hops;
    }
  }

  lemma HopOf(e: Engine, prior: Anchor, hops: seq<Doc>, i: nat)
    requires i < |hops| && VerifyWalk(e, prior, hops).Ok?
    ensures VerifyWalk(e, prior, hops[..i]).Ok? && VerifyWalk(e, prior, hops[..i + 1]).Ok?
    ensures VerifyTransition(e, AnchorAt(e, prior, hops, i), hops[i]) == Ok(AnchorAt(e, prior, hops, i + 1))
  {
    PrefixIsAccepted(e, prior, hops, i);
    PrefixIsAccepted(e, prior, hops, i + 1);
    assert hops[..i + 1][..i] == hops[..i];
  }

  lemma {:induction false} WalkCounts(e: Engine, prior: Anchor, hops: seq<Doc>)
    requires VerifyWalk(e, prior, hops).Ok?
    ensures VerifyWalk(e, prior, hops).value.revision == prior.revision + |hops|
    ensures VerifyWalk(e, prior, hops).value.group == prior.group
  {
    if hops != [] { WalkCounts(e, prior, hops[..|hops| - 1]); }
  }

  /**
    In an accepted walk every hop carries a signature under a key of the preceding anchor's signers, unless that
    anchor's rule is vacuous; revisions count up by one in one group; and each new anchor has one founder and
    distinct signer keys.
  */
  lemma WalkAuthority(e: Engine, prior: Anchor, hops: seq<Doc>, i: nat)
    requires FoundersSign(e) && VerifyWalk(e, prior, hops).Ok? && i < |hops|
    ensures VerifyWalk(e, prior, hops[..i]).Ok? && VerifyWalk(e, prior, hops[..i + 1]).Ok?
    ensures var before, after := AnchorAt(e, prior, hops, i), AnchorAt(e, prior, hops, i + 1);
      (!VacuousRule(before.governance) ==> SignedBy(e, hops[i], KeysOf(before.signers))) &&
      hops[i].prev == before.hash &&
      after.revision == prior.revision + i + 1 && after.group == prior.group && WellFormed(e, after)
  {
    HopOf(e, prior, hops, i);
    var before := AnchorAt(e, prior, hops, i);
    if !VacuousRule(before.governance) { AcceptedIsSigned(e, before, hops[i]); }
    WalkCounts(e, prior, hops[..i + 1]);
    SoundDocsAreWellFormed(e, hops[i]);
  }

  /** Some hop between two points of a walk was signed by the key. */
  ghost predicate SignedBetween(e: Engine, hops: seq<Doc>, i: nat, j: nat, key: Key)
    requires i <= j <= |hops|
  {
    exists h :: i <= h < j && SignedBy(e, hops[h], [key])
  }

  lemma HopKeepsRecovery(e: Engine, prior: Anchor, cand: Doc, key: Key)
    requires VerifyTransition(e, prior, cand).Ok? && prior.recovery == Some(key)
    ensures VerifyTransition(e, prior, cand).value.recovery == Some(key) || SignedBy(e, cand, [key])
  {
  }

  lemma SignedBetweenGrows(e: Engine, hops: seq<Doc>, i: nat, key: Key)
    requires i < |hops|
    requires SignedBetween(e, hops[..|hops| - 1], i, |hops| - 1, key) || SignedBy(e, hops[|hops| - 1], [key])
    ensures SignedBetween(e, hops, i, |hops|, key)
  {
    var front := hops[..|hops| - 1];
    if SignedBetween(e, front, i, |front|, key) {
      var h :| i <= h < |front| && SignedBy(e, front[h], [key]);
      assert SignedBy(e, hops[h], [key]);
    }
  }

  /** A recovery authority pinned at some point of a walk is still pinned at its end, or some hop since was signed by
      that authority itself. */
  lemma {:induction false} RecoveryIsPinned(e: Engine, prior: Anchor, hops: seq<Doc>, i: nat, key: Key)
    requires VerifyWalk(e, prior, hops).Ok? && i <= |hops|
    requires VerifyWalk(e, prior, hops[..i]).Ok? && AnchorAt(e, prior, hops, i).recovery == Some(key)
    ensures VerifyWalk(e, prior, hops).value.recovery == Some(key) || SignedBetween(e, hops, i, |hops|, key)
    decreases |hops|
  {
    if i == |hops| {
      assert hops[..i] == hops;
    } else {
      var front := hops[..|hops| - 1];
      assert front[..i] == hops[..i];
      RecoveryIsPinned(e, prior, front, i, key);
      if VerifyWalk(e, prior, front).value.recovery == Some(key) {
        HopKeepsRecovery(e, VerifyWalk(e, prior, front).value, hops[|hops| - 1], key);
      }
      if VerifyWalk(e, prior, hops).value.recovery != Some(key) { SignedBetweenGrows(e, hops, i, key); }
    }
  }

  // ----- no lockout -----

  predicate Satisfiable(a: Anchor) {
    RuleIsSatisfiable(a.governance, |a.signers|)
  }

  /** A rule that can be met can still be met after every accepted walk. */
  lemma {:induction false} WalksStaySatisfiable(e: Engine, prior: Anchor, hops: seq<Doc>)
    requires Satisfiable(prior) && VerifyWalk(e, prior, hops).Ok?
    ensures Satisfiable(VerifyWalk(e, prior, hops).value)
  {
    if hops != [] { WalksStaySatisfiable(e, prior, hops[..|hops| - 1]); }
  }

  ghost predicate SignedByAll(e: Engine, doc: Doc, signers: seq<Signer>) {
    forall s :: s in signers ==> SignedBy(e, doc, [s.key])
  }

  lemma SignedApproves(e: Engine, prior: Anchor, cand: Doc, s: Signer)
    requires s in prior.signers && SignedBy(e, cand, [s.key])
    ensures s.key in ApproversOf(e, prior, cand)
  {
    KeyInKeys(prior.signers, s);
  }

  lemma EveryoneApproves(e: Engine, prior: Anchor, cand: Doc)
    requires SignedByAll(e, cand, prior.signers)
    ensures ApproversOf(e, prior, cand) == SetOf(KeysOf(prior.signers))
  {
    forall k | k in SetOf(KeysOf(prior.signers)) ensures k in ApproversOf(e, prior, cand) {
      var i :| 0 <= i < |prior.signers| && KeysOf(prior.signers)[i] == k;
      SignedApproves(e, prior, cand, prior.signers[i]);
    }
  }

  lemma {:induction false} DistinctKeysCount(signers: seq<Signer>)
    requires DistinctKeys(signers)
    ensures |SetOf(KeysOf(signers))| == |signers|
  {
    if signers != [] {
      var front, last := signers[..|signers| - 1], signers[|signers| - 1];
      DistinctKeysCount(front);
      assert SetOf(KeysOf(signers)) == SetOf(KeysOf(front)) + {last.key};
      assert last.key !in SetOf(KeysOf(front));
    }
  }

  lemma EverybodyIncludesTheFounder(e: Engine, prior: Anchor)
    requires WellFormed(e, prior)
    ensures SatisfiedBy(FounderRule(e, prior), SetOf(KeysOf(prior.signers)))
  {
    WellFormedHasFounder(e, prior);
    KeyInKeys(prior.signers, FounderOf(e, prior.signers).value);
  }

  /** All keys together satisfy every rule but a threshold above their number. */
  lemma EverybodySatisfies(e: Engine, prior: Anchor, signers: seq<Signer>)
    requires WellFormed(e, prior)
    ensures SatisfiedBy(RuleOf(e, prior, signers), SetOf(KeysOf(prior.signers))) <==>
            prior.governance.kind != 3 || prior.governance.threshold <= |prior.signers|
  {
    var keys, m, staying := SetOf(KeysOf(prior.signers)), prior.governance.threshold, StayingCoOwners(e, prior, signers);
    EverybodyIncludesTheFounder(e, prior);
    if prior.governance.kind == 2 {
      EitherIs(FounderRule(e, prior), Threshold(m, staying), keys);
    } else if prior.governance.kind == 3 {
      DistinctKeysCount(prior.signers);
      assert keys * keys == keys;
    } else if prior.governance.kind != 1 {
      EitherIs(FounderRule(e, prior), All(keys), keys);
    }
  }

  lemma EveryoneMeetsTheRule(e: Engine, prior: Anchor, cand: Doc)
    requires WellFormed(e, prior) && Satisfiable(prior) && SignedByAll(e, cand, prior.signers)
    ensures MeetsPriorRule(e, prior, cand)
  {
    FullApprovalMeets(e, prior, cand);
  }

  /** From a well-formed anchor whose rule can be met, a chained document with a rule its own signers can meet, signed
      by all current signers, and by the old recovery key if it rotates it, is accepted. */
  lemma NoLockout(e: Engine, prior: Anchor, cand: Doc)
    requires WellFormed(e, prior) && Satisfiable(prior)
    requires Chained(e, prior, cand) && RuleIsSatisfiable(cand.governance, |DerivedSigners(e, cand.members)|)
    requires SignedByAll(e, cand, prior.signers)
    requires RotatesRecovery(prior, cand) ==> SignedBy(e, cand, [prior.recovery.value])
    ensures VerifyTransition(e, prior, cand) == Ok(AnchorFrom(e, cand))
  {
    assert MeetsPriorRule(e, prior, cand) by { EveryoneMeetsTheRule(e, prior, cand); }
    assert SignedBy(e, cand, KeysOf(prior.signers)) by { EveryoneSigns(e, prior, cand); }
    Endorsed(e, prior, cand);
  }

  lemma Endorsed(e: Engine, prior: Anchor, cand: Doc)
    requires Chained(e, prior, cand) && RuleIsSatisfiable(cand.governance, |DerivedSigners(e, cand.members)|)
    requires MeetsPriorRule(e, prior, cand) && SignedBy(e, cand, KeysOf(prior.signers))
    requires RotatesRecovery(prior, cand) ==> SignedBy(e, cand, [prior.recovery.value])
    ensures VerifyTransition(e, prior, cand) == Ok(AnchorFrom(e, cand))
  {
    AcceptedWhen(e, prior, cand);
  }

  lemma EveryoneSigns(e: Engine, prior: Anchor, cand: Doc)
    requires WellFormed(e, prior) && SignedByAll(e, cand, prior.signers)
    ensures SignedBy(e, cand, KeysOf(prior.signers))
  {
    EveryoneApproves(e, prior, cand);
    WellFormedHasFounder(e, prior);
    var f := FounderOf(e, prior.signers).value;
    KeyInKeys(prior.signers, f);
    assert f.key in SetOf(KeysOf(prior.signers));
    ApproverSigns(e, prior, cand);
  }

  /** In particular, after any accepted walk from such an anchor. */
  lemma NoLockoutAfterAnyWalk(e: Engine, prior: Anchor, hops: seq<Doc>, cand: Doc)
    requires FoundersSign(e) && WellFormed(e, prior) && Satisfiable(prior) && VerifyWalk(e, prior, hops).Ok?
    requires var head := VerifyWalk(e, prior, hops).value;
      Chained(e, head, cand) && RuleIsSatisfiable(cand.governance, |DerivedSigners(e, cand.members)|) &&
      SignedByAll(e, cand, head.signers) &&
      (RotatesRecovery(head, cand) ==> SignedBy(e, cand, [head.recovery.value]))
    ensures VerifyWalk(e, prior, hops + [cand]) == Ok(AnchorFrom(e, cand))
  {
    var head := VerifyWalk(e, prior, hops).value;
    WalksStaySatisfiable(e, prior, hops);
    assert WellFormed(e, head) by {
      if hops != [] {
        WalkAuthority(e, prior, hops, |hops| - 1);
        assert hops[..|hops|] == hops;
      }
    }
    NoLockout(e, head, cand);
    assert (hops + [cand])[..|hops|] == hops;
  }

  /**
    When everybody's approval is enough: always, except for a threshold above the number of signers. The guard on
    candidates is stricter: it also refuses threshold 0 of kind 3 and every unknown kind.
  */
  lemma FullApprovalMeets(e: Engine, prior: Anchor, cand: Doc)
    requires WellFormed(e, prior) && SignedByAll(e, cand, prior.signers)
    ensures MeetsPriorRule(e, prior, cand) <==>
            prior.governance.kind != 3 || prior.governance.threshold <= |prior.signers|
    ensures Satisfiable(prior) <==>
            prior.governance.kind <= 3 && (prior.governance.kind == 3 ==> 0 < prior.governance.threshold <= |prior.signers|)
  {
    TallyRefinesRequirement(e, prior, cand);
    EveryoneApproves(e, prior, cand);
    EverybodySatisfies(e, prior, DerivedSigners(e, cand.members));
  }

  /** From a threshold above the number of signers no change of signers or rule is ever accepted, except a co-owner
      leaving: such an anchor is locked out. */
  lemma ThresholdTooHighLocksOut(e: Engine, prior: Anchor, cand: Doc)
    requires prior.governance.kind == 3 && prior.governance.threshold > |prior.signers|
    requires Privileged(e, prior, cand) && !RemovesItself(e, prior, cand)
    ensures VerifyTransition(e, prior, cand).Err?
  {
    assert !MeetsPriorRule(e, prior, cand) by { TooFewApprovers(e, prior, cand); }
  }

  lemma TooFewApprovers(e: Engine, prior: Anchor, cand: Doc)
    requires prior.governance.kind == 3 && prior.governance.threshold > |prior.signers|
    ensures !MeetsPriorRule(e, prior, cand)
  {
    var keys := SetOf(KeysOf(prior.signers));
    TallyRefinesRequirement(e, prior, cand);
    KeysAreFew(prior.signers);
    SubsetSize(keys * ApproversOf(e, prior, cand), keys);
  }

  lemma {:induction false} KeysAreFew(signers: seq<Signer>)
    ensures |SetOf(KeysOf(signers))| <= |signers|
  {
    if signers != [] {
      var front, last := signers[..|signers| - 1], signers[|signers| - 1];
      KeysAreFew(front);
      assert SetOf(KeysOf(signers)) == SetOf(KeysOf(front)) + {last.key};
    }
  }

  // ----- where walks start -----

  lemma {:induction false} OneFounder(e: Engine, signers: seq<Signer>, s: Signer)
    requires s in signers && e.isFounder(s.role)
    ensures Founders(e, signers) >= 1
    ensures Founders(e, signers) == 1 ==> forall t :: t in signers && e.isFounder(t.role) ==> t == s
  {
    var front, last := signers[..|signers| - 1], signers[|signers| - 1];
    assert forall t :: t in signers <==> t in front || t == last;
    if e.isFounder(last.role) {
      if exists t :: t in front && e.isFounder(t.role) {
        var t :| t in front && e.isFounder(t.role);
        OneFounder(e, front, t);
      }
    } else {
      OneFounder(e, front, s);
    }
  }

  /** A genesis is trusted only as the caller's own: revision 1, one founder with the caller's key, signed by it. */
  lemma GenesisIsOwn(e: Engine, genesis: Doc, own: Key)
    requires FoundersSign(e) && BootstrapGenesis(e, genesis, own).Ok?
    ensures var a := BootstrapGenesis(e, genesis, own).value;
      WellFormed(e, a) && a.revision == 1 && FounderOf(e, a.signers).Some? && FounderOf(e, a.signers).value.key == own &&
      SignedBy(e, genesis, [own])
  {
    var a := BootstrapGenesis(e, genesis, own).value;
    var f := FounderOf(e, genesis.members).value;
    SoundDocsAreWellFormed(e, genesis);
    assert f in a.signers;
    OneFounder(e, a.signers, f);
    WellFormedHasFounder(e, a);
  }

  /** A reset starts from a well-formed anchor that one of its own signers signed; a pinned recovery authority is
      carried on and has signed. */
  lemma ResetKeepsAuthority(e: Engine, pinned: Option<Key>, doc: Doc)
    requires FoundersSign(e) && VerifyReset(e, pinned, doc).Ok?
    ensures var a := VerifyReset(e, pinned, doc).value;
      WellFormed(e, a) && (exists s :: s in a.signers && SignedBy(e, doc, [s.key])) &&
      (pinned.Some? ==> a.recovery == pinned && SignedBy(e, doc, [pinned.value]))
  {
    SoundDocsAreWellFormed(e, doc);
    var signers := DerivedSigners(e, doc.members);
    var sig :| sig in doc.signatures &&
      exists key :: key in KeysOf(signers) && e.verifies(key, SigningBytes(e, doc), sig);
    var key :| key in KeysOf(signers) && e.verifies(key, SigningBytes(e, doc), sig);
    var s := SignerOfKey(signers, key);
    assert [s.key][0] in [s.key];
    assert SignedBy(e, doc, [s.key]);
  }

  // ----- documents nobody signed -----

  lemma UnsignedHasNoApprovers(e: Engine, prior: Anchor, cand: Doc)
    requires cand.signatures == []
    ensures ApproversOf(e, prior, cand) == {} && forall keys :: !SignedBy(e, cand, keys)
  {
    assert forall k :: !Approves(e, k, SigningBytes(e, cand), cand.signatures);
  }

  /** A document that carries no signature is accepted exactly when it chains on, changes the signers, the rule or the
      absence of a recovery authority, the prior rule is vacuous, and it rotates no authority. */
  lemma UnsignedIsAccepted(e: Engine, prior: Anchor, cand: Doc)
    requires cand.signatures == []
    ensures VerifyTransition(e, prior, cand).Ok? <==>
            Chained(e, prior, cand) && Privileged(e, prior, cand) && VacuousRule(prior.governance) &&
            RuleIsSatisfiable(cand.governance, |DerivedSigners(e, cand.members)|) && !RotatesRecovery(prior, cand)
  {
    UnsignedHasNoApprovers(e, prior, cand);
    RuleWithoutSignatures(e, prior, cand);
    AcceptedWhen(e, prior, cand);
    assert !RemovesItself(e, prior, cand);
  }

  // ----- what a self-removal carries along -----

  /** An engine with transparent signatures: a signature is the key that made it. */
  const TOY: Engine := Engine(
    (key, msg, sig) => key == sig, key => true, (role: Role) => role.n == 1, (role: Role) => 1 <= role.n <= 2,
    id => [], role => [], bytes => [0, 0, 0, 0, 0, 0, 0, 0, 0, 0, 0, 0, 0, 0, 0, 0,
                                    0, 0, 0, 0, 0, 0, 0, 0, 0, 0, 0, 0, 0, 0, 0, 0])

  /** A co-owner who leaves can rewrite the rule and plant a recovery authority in the same document, alone, although
      the prior rule is founder-only. */
  lemma LeavingExcusesARuleChange(prior: Anchor, cand: Doc)
    requires prior.group == cand.group == [] && prior.revision == 1 && cand.revision == 2 && cand.prev == prior.hash
    requires prior.signers == [Signer(Id(1), Role(1), [1]), Signer(Id(2), Role(2), [2])]
    requires prior.governance == Governance(1, 0) && prior.recovery == None
    requires cand.members == [Signer(Id(1), Role(1), [1])] && cand.fault == None
    requires cand.governance == Governance(3, 1) && cand.recovery == Some([9]) && cand.signatures == [[2]]
    ensures VerifyTransition(TOY, prior, cand).Ok? && !MeetsPriorRule(TOY, prior, cand)
    ensures cand.governance != prior.governance && prior.recovery.None? && cand.recovery.Some?
  {
    var founder, leaver := prior.signers[0], prior.signers[1];
    assert cand.members[..0] == [] && prior.signers[..1] == [founder];
    assert DerivedSigners(TOY, cand.members) == [founder];
    assert Departing([founder], [founder]) == [];
    assert Departing(prior.signers, [founder]) == [leaver];
    assert FounderOf(TOY, prior.signers) == Some(founder);
    assert cand.signatures[0] in cand.signatures;
    assert [leaver.key][0] in [leaver.key];
    assert !DuplicateId(cand.members, 0) && !DuplicateKey(TOY, cand.members, 0);
    assert Founders(TOY, []) == 0 && Founders(TOY, cand.members) == 1;
    assert MemberFault(TOY, cand.members, 1).None?;
    assert MemberFault(TOY, cand.members, 0).None?;
    assert SignedBy(TOY, cand, [leaver.key]);
    assert leaver !in [founder] && SignerSetDiffers(prior.signers, [founder]);
    assert RemovesItself(TOY, prior, cand);
    assert !SignedBy(TOY, cand, [founder.key]);
  }

  /** With the rule of kind 2 and threshold 0, a rule change with no signature is accepted. */
  lemma UnsignedRuleChange(prior: Anchor, cand: Doc)
    requires prior.group == cand.group == [] && prior.revision == 1 && cand.revision == 2 && cand.prev == prior.hash
    requires prior.signers == cand.members == [Signer(Id(1), Role(1), [1])] && cand.fault == None
    requires prior.governance == Governance(2, 0) && cand.governance == Governance(1, 0)
    requires prior.recovery == None == cand.recovery && cand.signatures == []
    ensures VerifyTransition(TOY, prior, cand) == Ok(AnchorFrom(TOY, cand))
  {
    var founder := prior.signers[0];
    assert cand.members[..0] == [];
    assert DerivedSigners(TOY, cand.members) == [founder];
    assert !DuplicateId(cand.members, 0) && !DuplicateKey(TOY, cand.members, 0);
    assert Founders(TOY, []) == 0 && Founders(TOY, cand.members) == 1;
    assert MemberFault(TOY, cand.members, 1).None?;
    assert MemberFault(TOY, cand.members, 0).None?;
    UnsignedIsAccepted(TOY, prior, cand);
  }
}
