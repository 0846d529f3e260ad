/**
  The documents of the membership chain and the bytes their signers sign. The encoding is injective in every signed
  field, so whoever signed the bytes signed the fields.
*/
module Signing {
  import opened Wrappers
  import opened Bytes

  type u32 = n: int | 0 <= n < U32_LIMIT

  /** A 32-byte digest. */
  type Hash = b: seq<byte> | |b| == 32 witness seq(32, _ => 0)

  /** A public key is its bytes. */
  type Key = seq<byte>

  type Signature = seq<byte>

  datatype Id = Id(n: nat)

  datatype Role = Role(n: nat)

  datatype Signer = Signer(id: Id, role: Role, key: Key)

  datatype Governance = Governance(kind: u32, threshold: u32)

  /** A candidate document. `fault` is what the binding's own structural gate says of it. */
  datatype Doc = Doc(group: seq<byte>, revision: u32, prev: Hash, layout: u32, members: seq<Signer>,
                     governance: Governance, recovery: Option<Key>, signatures: seq<Signature>, commitment: Hash,
                     fault: Option<string>)

  /** What the chain is generic in: the signature scheme, the role ladder, the canonical encodings and SHA-256. */
  datatype Engine = Engine(verifies: (Key, seq<byte>, Signature) -> bool, accepts: Key -> bool,
                           isFounder: Role -> bool, isSigner: Role -> bool,
                           idBytes: Id -> seq<byte>, roleBytes: Role -> seq<byte>, sha256: seq<byte> -> Hash)

  /** `keyeo:linear:v1` */
  const DOMAIN_TAG: seq<byte> := [107, 101, 121, 101, 111, 58, 108, 105, 110, 101, 97, 114, 58, 118, 49]

  // ----- the encoding -----

  /** Four bytes of length, then the bytes. */
  function Framed(b: seq<byte>): seq<byte> {
    U32(Len32(|b|)) + b
  }

  /** The signed fields in order, each written before `rest`. */
  function MemberThen(e: Engine, m: Signer, rest: seq<byte>): seq<byte> {
    Framed(e.idBytes(m.id)) + (Framed(e.roleBytes(m.role)) + (Framed(m.key) + rest))
  }

  function MembersThen(e: Engine, members: seq<Signer>, rest: seq<byte>): seq<byte> {
    if members == [] then rest else MemberThen(e, members[0], MembersThen(e, members[1..], rest))
  }

  function RecoveryThen(recovery: Option<Key>, rest: seq<byte>): seq<byte> {
    U32(if recovery.Some? then 1 else 0) + (Framed(recovery.GetOr([])) + rest)
  }

  function HeaderThen(doc: Doc, rest: seq<byte>): seq<byte> {
    Framed(DOMAIN_TAG) + (Framed(doc.group) + (U32(doc.revision) + (Framed(doc.prev) + (U32(doc.layout) + rest))))
  }

  function TailBytes(doc: Doc): seq<byte> {
    U32(doc.governance.kind) + (U32(doc.governance.threshold) + RecoveryThen(doc.recovery, Framed(doc.commitment)))
  }

  function SigningBytes(e: Engine, doc: Doc): seq<byte> {
    HeaderThen(doc, U32(Len32(|doc.members|)) + MembersThen(e, doc.members, TailBytes(doc)))
  }

  function HashOf(e: Engine, doc: Doc): Hash {
    e.sha256(SigningBytes(e, doc))
  }

  // ----- the encoder -----

  /** Both append to the buffer; `rest` is what the caller still has to write. */
  method PutBytes(out: seq<byte>, b: seq<byte>, ghost rest: seq<byte>) returns (grown: seq<byte>)
    ensures grown + rest == out + (Framed(b) + rest)
  {
    var len := if |b| < U32_LIMIT then |b| else U32_LIMIT - 1;
    grown := out + U32(len);
    grown := grown + b;
    Associative(out, U32(len), b);
    Associative(out, Framed(b), rest);
  }

  method PutU32(out: seq<byte>, n: u32, ghost rest: seq<byte>) returns (grown: seq<byte>)
    ensures grown + rest == out + (U32(n) + rest)
  {
    grown := out + U32(n);
    Associative(out, U32(n), rest);
  }

  method PutHeader(doc: Doc, ghost rest: seq<byte>) returns (out: seq<byte>)
    ensures out + rest == HeaderThen(doc, rest)
  {
    ghost var layout := U32(doc.layout) + rest;
    ghost var prev := Framed(doc.prev) + layout;
    ghost var revision := U32(doc.revision) + prev;
    out := PutBytes([], DOMAIN_TAG, Framed(doc.group) + revision);
    out := PutBytes(out, doc.group, revision);
    out := PutU32(out, doc.revision, prev);
    out := PutBytes(out, doc.prev, layout);
    out := PutU32(out, doc.layout, rest);
  }

  method PutMember(e: Engine, out: seq<byte>, m: Signer, ghost rest: seq<byte>) returns (grown: seq<byte>)
    ensures grown + rest == out + MemberThen(e, m, rest)
  {
    ghost var key := Framed(m.key) + rest;
    ghost var role := Framed(e.roleBytes(m.role)) + key;
    grown := PutBytes(out, e.idBytes(m.id), role);
    grown := PutBytes(grown, e.roleBytes(m.role), key);
    grown := PutBytes(grown, m.key, rest);
  }

  method PutTail(out: seq<byte>, doc: Doc) returns (grown: seq<byte>)
    ensures grown == out + TailBytes(doc)
  {
    ghost var commitment := Framed(doc.commitment);
    ghost var recovery := RecoveryThen(doc.recovery, commitment);
    grown := PutU32(out, doc.governance.kind, U32(doc.governance.threshold) + recovery);
    grown := PutU32(grown, doc.governance.threshold, recovery);
    match doc.recovery {
      case Some(k) =>
        grown := PutU32(grown, 1, Framed(k) + commitment);
        grown := PutBytes(grown, k, commitment);
      case None =>
        grown := PutU32(grown, 0, Framed([]) + commitment);
        grown := PutBytes(grown, [], commitment);
    }
    ghost var before := grown;
    grown := PutBytes(grown, doc.commitment, []);
    assert grown == grown + [] && Framed(doc.commitment) + [] == Framed(doc.commitment);
  }

  method WriteSignedBytes(e: Engine, doc: Doc) returns (out: seq<byte>)
    ensures out == SigningBytes(e, doc)
  {
    ghost var tail := TailBytes(doc);
    ghost var members := MembersThen(e, doc.members, tail);
    var count := if |doc.members| < U32_LIMIT then |doc.members| else U32_LIMIT - 1;
    out := PutHeader(doc, U32(count) + members);
    out := PutU32(out, count, members);
    assert doc.members[0..] == doc.members;
    for i := 0 to |doc.members|
      invariant out + MembersThen(e, doc.members[i..], tail) == SigningBytes(e, doc)
    {
      assert doc.members[i..][1..] == doc.members[i + 1..];
      out := PutMember(e, out, doc.members[i], MembersThen(e, doc.members[i + 1..], tail));
    }
    assert doc.members[|doc.members|..] == [];
    out := PutTail(out, doc);
  }

  // ----- injectivity -----

  ghost predicate InjectiveEncodings(e: Engine) {
    (forall a, b :: e.idBytes(a) == e.idBytes(b) ==> a == b) &&
    (forall a, b :: e.roleBytes(a) == e.roleBytes(b) ==> a == b)
  }

  /** Every length fits its 32-bit prefix. */
  ghost predicate Fits(e: Engine, doc: Doc) {
    |doc.group| < U32_LIMIT && |doc.members| < U32_LIMIT &&
    RecoveryFits(doc.recovery) && AllFit(e, doc.members)
  }

  ghost predicate MemberFits(e: Engine, m: Signer) {
    |e.idBytes(m.id)| < U32_LIMIT && |e.roleBytes(m.role)| < U32_LIMIT && |m.key| < U32_LIMIT
  }

  /** Two documents agree on everything that is signed: all but the signatures and the gate's own view. */
  predicate SameSigned(a: Doc, b: Doc) {
    a.(signatures := [], fault := None) == b.(signatures := [], fault := None)
  }

  lemma SplitSame(a: seq<byte>, r: seq<byte>, b: seq<byte>, s: seq<byte>)
    requires a + r == b + s && |a| == |b|
    ensures a == b && r == s
  {
    assert (a + r)[..|a|] == a && (b + s)[..|b|] == b;
    assert (a + r)[|a|..] == r && (b + s)[|b|..] == s;
  }

  lemma SplitU32(m: u32, r: seq<byte>, n: u32, s: seq<byte>)
    requires U32(m) + r == U32(n) + s
    ensures m == n && r == s
  {
    SplitSame(U32(m), r, U32(n), s);
    U32RoundTrip(m);
    U32RoundTrip(n);
  }

  lemma SplitFramed(a: seq<byte>, r: seq<byte>, b: seq<byte>, s: seq<byte>)
    requires |a| < U32_LIMIT && |b| < U32_LIMIT && Framed(a) + r == Framed(b) + s
    ensures a == b && r == s
  {
    assert Framed(a) + r == U32(|a|) + (a + r);
    assert Framed(b) + s == U32(|b|) + (b + s);
    SplitU32(|a|, a + r, |b|, b + s);
    SplitSame(a, r, b, s);
  }

  lemma SplitMember(e: Engine, m: Signer, r: seq<byte>, n: Signer, s: seq<byte>)
    requires InjectiveEncodings(e) && MemberFits(e, m) && MemberFits(e, n)
    requires MemberThen(e, m, r) == MemberThen(e, n, s)
    ensures m == n && r == s
  {
    var mKey, nKey := Framed(m.key) + r, Framed(n.key) + s;
    SplitFramed(e.idBytes(m.id), Framed(e.roleBytes(m.role)) + mKey, e.idBytes(n.id), Framed(e.roleBytes(n.role)) + nKey);
    SplitFramed(e.roleBytes(m.role), mKey, e.roleBytes(n.role), nKey);
    SplitFramed(m.key, r, n.key, s);
  }

  ghost predicate AllFit(e: Engine, ms: seq<Signer>) {
    forall m :: m in ms ==> MemberFits(e, m)
  }

  lemma {:induction false} SplitMembers(e: Engine, ms: seq<Signer>, r: seq<byte>, ns: seq<Signer>, s: seq<byte>)
    requires InjectiveEncodings(e) && |ms| == |ns| && AllFit(e, ms) && AllFit(e, ns)
    requires MembersThen(e, ms, r) == MembersThen(e, ns, s)
    ensures ms == ns && r == s
  {
    if ms != [] {
      SplitMember(e, ms[0], MembersThen(e, ms[1..], r), ns[0], MembersThen(e, ns[1..], s));
      SplitMembers(e, ms[1..], r, ns[1..], s);
      assert ms == [ms[0]] + ms[1..] && ns == [ns[0]] + ns[1..];
    }
  }

  lemma SplitHeader(a: Doc, r: seq<byte>, b: Doc, s: seq<byte>)
    requires |a.group| < U32_LIMIT && |b.group| < U32_LIMIT
    requires HeaderThen(a, r) == HeaderThen(b, s)
    ensures a.group == b.group && a.revision == b.revision && a.prev == b.prev && a.layout == b.layout && r == s
  {
    var a4, b4 := U32(a.layout) + r, U32(b.layout) + s;
    var a3, b3 := Framed(a.prev) + a4, Framed(b.prev) + b4;
    var a2, b2 := U32(a.revision) + a3, U32(b.revision) + b3;
    SplitFramed(DOMAIN_TAG, Framed(a.group) + a2, DOMAIN_TAG, Framed(b.group) + b2);
    SplitFramed(a.group, a2, b.group, b2);
    SplitU32(a.revision, a3, b.revision, b3);
    SplitFramed(a.prev, a4, b.prev, b4);
    SplitU32(a.layout, r, b.layout, s);
  }

  ghost predicate RecoveryFits(k: Option<Key>) {
    k.Some? ==> |k.value| < U32_LIMIT
  }

  lemma SplitRecovery(a: Option<Key>, r: seq<byte>, b: Option<Key>, s: seq<byte>)
    requires RecoveryFits(a) && RecoveryFits(b) && RecoveryThen(a, r) == RecoveryThen(b, s)
    ensures a == b && r == s
  {
    var ka, kb := a.GetOr([]), b.GetOr([]);
    SplitU32(if a.Some? then 1 else 0, Framed(ka) + r, if b.Some? then 1 else 0, Framed(kb) + s);
    SplitFramed(ka, r, kb, s);
  }

  lemma SplitTail(a: Doc, b: Doc)
    requires RecoveryFits(a.recovery) && RecoveryFits(b.recovery) && TailBytes(a) == TailBytes(b)
    ensures a.governance == b.governance && a.recovery == b.recovery && a.commitment == b.commitment
  {
    var a3, b3 := Framed(a.commitment), Framed(b.commitment);
    var a2, b2 := RecoveryThen(a.recovery, a3), RecoveryThen(b.recovery, b3);
    SplitU32(a.governance.kind, U32(a.governance.threshold) + a2, b.governance.kind, U32(b.governance.threshold) + b2);
    SplitU32(a.governance.threshold, a2, b.governance.threshold, b2);
    SplitRecovery(a.recovery, a3, b.recovery, b3);
    assert a3 + [] == a3 && b3 + [] == b3;
    SplitFramed(a.commitment, [], b.commitment, []);
  }

  /** Equal bytes are signed only by equal documents, field by field, whatever the members' count and order. */
  lemma SigningBytesInjective(e: Engine, a: Doc, b: Doc)
    requires InjectiveEncodings(e) && Fits(e, a) && Fits(e, b)
    ensures SigningBytes(e, a) == SigningBytes(e, b) <==> SameSigned(a, b)
  {
    if SigningBytes(e, a) == SigningBytes(e, b) {
      var a2, b2 := MembersThen(e, a.members, TailBytes(a)), MembersThen(e, b.members, TailBytes(b));
      SplitHeader(a, U32(Len32(|a.members|)) + a2, b, U32(Len32(|b.members|)) + b2);
      SplitU32(Len32(|a.members|), a2, Len32(|b.members|), b2);
      SplitMembers(e, a.members, TailBytes(a), b.members, TailBytes(b));
      SplitTail(a, b);
    }
  }
}
