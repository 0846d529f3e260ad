/**
  The membership chain: when a document may succeed an anchor, whole walks, and the entry points that start a walk.
  Every check reads the prior anchor, never the candidate's own claim.
*/
module Chain {
  import opened Wrappers
  import opened Bytes
  import opened Signing
  import opened Quorum

  datatype Anchor = Anchor(group: seq<byte>, revision: u32, hash: Hash, signers: seq<Signer>, governance: Governance,
                           recovery: Option<Key>)

  datatype Error =
    | GroupMismatch | BadStructure(why: string) | Structure(why: string) | NonSequential | RevisionOverflow | Fork
    | UnendorsedOrdinaryChange | UnendorsedSetChange | BadBootstrap

  type Verified = Result<Anchor, Error>

  // ----- structure -----

  function Founders(e: Engine, members: seq<Signer>): nat {
    if members == [] then 0
    else Founders(e, members[..|members| - 1]) + if e.isFounder(members[|members| - 1].role) then 1 else 0
  }

  predicate DuplicateId(members: seq<Signer>, i: nat)
    requires i < |members|
  {
    exists j :: 0 <= j < i && members[j].id == members[i].id
  }

  predicate DuplicateKey(e: Engine, members: seq<Signer>, i: nat)
    requires i < |members|
  {
    exists j :: 0 <= j < i && e.isSigner(members[j].role) && members[j].key == members[i].key
  }

  /** The first complaint about the members from `i` on. */
  function MemberFault(e: Engine, members: seq<Signer>, i: nat): Option<Error>
    requires i <= |members|
    decreases |members| - i
  {
    if i == |members| then None
    else if DuplicateId(members, i) then Some(BadStructure("duplicate member"))
    else if e.isSigner(members[i].role) && !e.accepts(members[i].key) then Some(BadStructure("signer key malformed"))
    else if e.isSigner(members[i].role) && DuplicateKey(e, members, i) then Some(BadStructure("duplicate signer"))
    else MemberFault(e, members, i + 1)
  }

  /** The binding's gate, then `check_structure_generic`. */
  function StructureFault(e: Engine, doc: Doc): Option<Error> {
    if doc.fault.Some? then Some(Structure(doc.fault.value))
    else if Founders(e, doc.members) != 1 then Some(BadStructure("must have exactly one founder"))
    else MemberFault(e, doc.members, 0)
  }

  function DerivedSigners(e: Engine, members: seq<Signer>): (signers: seq<Signer>)
    ensures forall s :: s in signers <==> s in members && e.isSigner(s.role)
  {
    if members == [] then []
    else
      var front, last := DerivedSigners(e, members[..|members| - 1]), members[|members| - 1];
      assert forall s :: s in members <==> s in members[..|members| - 1] || s == last;
      if e.isSigner(last.role) then front + [last] else front
  }

  function KeysOf(signers: seq<Signer>): (keys: seq<Key>)
    ensures |keys| == |signers| && forall i :: 0 <= i < |keys| ==> keys[i] == signers[i].key
  {
    if signers == [] then [] else KeysOf(signers[..|signers| - 1]) + [signers[|signers| - 1].key]
  }

  // ----- what a change needs -----

  /** Some signer of the second list is not in the first. */
  predicate Adds(prior: seq<Signer>, cand: seq<Signer>) {
    exists c :: c in cand && c !in prior
  }

  predicate SignerSetDiffers(prior: seq<Signer>, cand: seq<Signer>) {
    |prior| != |cand| || Adds(cand, prior) || Adds(prior, cand)
  }

  /** The signers a candidate drops or changes, in order. */
  function Departing(prior: seq<Signer>, cand: seq<Signer>): (out: seq<Signer>)
    ensures forall s :: s in out <==> s in prior && s !in cand
  {
    if prior == [] then []
    else
      var front, last := Departing(prior[..|prior| - 1], cand), prior[|prior| - 1];
      assert forall s :: s in prior <==> s in prior[..|prior| - 1] || s == last;
      if last !in cand then front + [last] else front
  }

  /** Exactly one signer, not the founder, leaves; nothing is added; and the one who leaves signed. */
  predicate IsSelfRemoval(e: Engine, prior: seq<Signer>, cand: seq<Signer>, msg: seq<byte>, sigs: seq<Signature>) {
    var removed := Departing(prior, cand);
    !Adds(prior, cand) && |removed| == 1 && !e.isFounder(removed[0].role) &&
    VerifyAny(e, msg, sigs, [removed[0].key])
  }

  function FounderOf(e: Engine, signers: seq<Signer>): (f: Option<Signer>)
    ensures f.Some? ==> f.value in signers && e.isFounder(f.value.role)
    ensures f.None? ==> forall s :: s in signers ==> !e.isFounder(s.role)
  {
    if signers == [] then None
    else if e.isFounder(signers[0].role) then Some(signers[0])
    else
      var rest := FounderOf(e, signers[1..]);
      assert forall s :: s in signers <==> s == signers[0] || s in signers[1..];
      rest
  }

  /** The keys that are neither the founder's nor a departing signer's. */
  function CoOwnerKeys(keys: seq<Key>, founder: Option<Signer>, departing: seq<Key>): (out: seq<Key>)
    ensures forall k :: k in out <==> k in keys && !(founder.Some? && founder.value.key == k) && k !in departing
  {
    if keys == [] then []
    else
      var front, last := CoOwnerKeys(keys[..|keys| - 1], founder, departing), keys[|keys| - 1];
      assert forall k :: k in keys <==> k in keys[..|keys| - 1] || k == last;
      if (founder.Some? && founder.value.key == last) || last in departing then front else front + [last]
  }

  predicate PriorGovernanceMet(e: Engine, prior: Anchor, cand: seq<Signer>, msg: seq<byte>, sigs: seq<Signature>) {
    var founder := FounderOf(e, prior.signers);
    var founderSigned := founder.Some? && VerifyAny(e, msg, sigs, [founder.value.key]);
    var departing := KeysOf(Departing(prior.signers, cand));
    var priorKeys := KeysOf(prior.signers);
    var m := prior.governance.threshold;
    if prior.governance.kind == 1 then founderSigned
    else if prior.governance.kind == 2 then
      founderSigned || VerifyThreshold(e, msg, sigs, CoOwnerKeys(priorKeys, founder, departing), m)
    else if prior.governance.kind == 3 then VerifyThreshold(e, msg, sigs, priorKeys, m)
    else founderSigned || VerifyAll(e, msg, sigs, priorKeys)
  }

  predicate RuleIsSatisfiable(g: Governance, signers: nat) {
    g.kind <= 2 || (g.kind == 3 && g.threshold > 0 && signers >= g.threshold)
  }

  function NextRevision(prior: u32): Option<u32> {
    if prior == U32_LIMIT - 1 then None else Some(prior + 1)
  }

  function AnchorFrom(e: Engine, doc: Doc): Anchor {
    Anchor(doc.group, doc.revision, HashOf(e, doc), DerivedSigners(e, doc.members), doc.governance, doc.recovery)
  }

  // ----- transitions and walks -----

  /** A change of signers or rule, or a first recovery authority. */
  predicate Privileged(e: Engine, prior: Anchor, cand: Doc) {
    SignerSetDiffers(prior.signers, DerivedSigners(e, cand.members)) || cand.governance != prior.governance ||
    (prior.recovery.None? && cand.recovery.Some?)
  }

  predicate RemovesItself(e: Engine, prior: Anchor, cand: Doc) {
    var signers := DerivedSigners(e, cand.members);
    SignerSetDiffers(prior.signers, signers) &&
    IsSelfRemoval(e, prior.signers, signers, SigningBytes(e, cand), cand.signatures)
  }

  predicate MeetsPriorRule(e: Engine, prior: Anchor, cand: Doc) {
    PriorGovernanceMet(e, prior, DerivedSigners(e, cand.members), SigningBytes(e, cand), cand.signatures)
  }

  predicate SignedBy(e: Engine, doc: Doc, keys: seq<Key>) {
    VerifyAny(e, SigningBytes(e, doc), doc.signatures, keys)
  }

  predicate RotatesRecovery(prior: Anchor, cand: Doc) {
    prior.recovery.Some? && cand.recovery != prior.recovery
  }

  function VerifyTransition(e: Engine, prior: Anchor, cand: Doc): Verified {
    if cand.group != prior.group then Err(GroupMismatch)
    else if StructureFault(e, cand).Some? then Err(StructureFault(e, cand).value)
    else if NextRevision(prior.revision).None? then Err(RevisionOverflow)
    else if cand.revision != NextRevision(prior.revision).value then Err(NonSequential)
    else if cand.prev != prior.hash then Err(Fork)
    else if Privileged(e, prior, cand) &&
            (!(RemovesItself(e, prior, cand) || MeetsPriorRule(e, prior, cand)) ||
             !RuleIsSatisfiable(cand.governance, |DerivedSigners(e, cand.members)|)) then Err(UnendorsedSetChange)
    else if !Privileged(e, prior, cand) && !SignedBy(e, cand, KeysOf(prior.signers)) then Err(UnendorsedOrdinaryChange)
    else if RotatesRecovery(prior, cand) && !SignedBy(e, cand, [prior.recovery.value]) then Err(UnendorsedSetChange)
    else Ok(AnchorFrom(e, cand))
  }

  /** Hop by hop; the first refusal ends the walk. */
  function VerifyWalk(e: Engine, prior: Anchor, hops: seq<Doc>): Verified {
    if hops == [] then Ok(prior)
    else
      var before := VerifyWalk(e, prior, hops[..|hops| - 1]);
      if before.Err? then before else VerifyTransition(e, before.value, hops[|hops| - 1])
  }

  // ----- starting points -----

  /** A document that stands on its own: sound, signed by one of its own signers, and continuing a pinned authority. */
  function VerifyReset(e: Engine, pinned: Option<Key>, doc: Doc): Verified {
    if StructureFault(e, doc).Some? then Err(StructureFault(e, doc).value)
    else if !SignedBy(e, doc, KeysOf(DerivedSigners(e, doc.members))) then Err(BadBootstrap)
    else if pinned.Some? && doc.recovery != pinned then Err(UnendorsedSetChange)
    else if pinned.Some? && !SignedBy(e, doc, [pinned.value]) then Err(UnendorsedSetChange)
    else Ok(AnchorFrom(e, doc))
  }

  predicate AllZero(hash: Hash) {
    forall i :: 0 <= i < |hash| ==> hash[i] == 0
  }

  /** The founder's own genesis. A member list with exactly one founder always yields one here. */
  function BootstrapGenesis(e: Engine, genesis: Doc, own: Key): Verified {
    if StructureFault(e, genesis).Some? then Err(StructureFault(e, genesis).value)
    else if genesis.revision != 1 || !AllZero(genesis.prev) then Err(BadBootstrap)
    else if FounderOf(e, genesis.members).None? then Err(BadStructure("no founder"))
    else if FounderOf(e, genesis.members).value.key != own then Err(BadBootstrap)
    else if !SignedBy(e, genesis, [own]) then Err(BadBootstrap)
    else Ok(AnchorFrom(e, genesis))
  }

  /** A head pinned out of band: group, revision and hash must match, and one of its own signers must have signed. */
  function BootstrapPinned(e: Engine, head: Doc, group: seq<byte>, revision: u32, hash: Hash): Verified {
    if head.group != group then Err(GroupMismatch)
    else if StructureFault(e, head).Some? then Err(StructureFault(e, head).value)
    else if head.revision != revision || HashOf(e, head) != hash then Err(BadBootstrap)
    else if !SignedBy(e, head, KeysOf(DerivedSigners(e, head.members))) then Err(BadBootstrap)
    else Ok(AnchorFrom(e, head))
  }
}
