/** `did:key` identifiers of Ed25519 keys: the chain of checks that reads one, and its exact inverse. */
module DidKey {
  import opened Wrappers
  import opened Bytes
  import opened Base58

  datatype DidError = NotDidKey | BadMultibase | BadBase58 | UnsupportedMulticodec | BadLength

  /** `did:key:` */
  const PREFIX: seq<byte> := [100, 105, 100, 58, 107, 101, 121, 58]

  /** `z` */
  const MULTIBASE: byte := 122

  const MULTICODEC: seq<byte> := [0xed, 0x01]

  const MAX_B58_LEN: nat := 128

  type PublicKey = b: seq<byte> | |b| == 32 witness
    [0, 0, 0, 0, 0, 0, 0, 0, 0, 0, 0, 0, 0, 0, 0, 0, 0, 0, 0, 0, 0, 0, 0, 0, 0, 0, 0, 0, 0, 0, 0, 0]

  function EncodeEd25519(key: PublicKey): seq<byte> {
    PREFIX + ([MULTIBASE] + Encode(MULTICODEC + key))
  }

  function DecodeEd25519(did: seq<byte>): Result<PublicKey, DidError> {
    if !(PREFIX <= did) then Err(NotDidKey)
    else
      var tail := did[|PREFIX|..];
      if tail == [] || tail[0] != MULTIBASE then Err(BadMultibase)
      else if |tail[1..]| > MAX_B58_LEN then Err(BadLength)
      else match Decode(tail[1..])
        case None => Err(BadBase58)
        case Some(bytes) =>
          if !(MULTICODEC <= bytes) then Err(UnsupportedMulticodec)
          else if |bytes[2..]| != 32 then Err(BadLength)
          else Ok(bytes[2..])
  }

  // ----- how long the body is, and how it starts -----

  function Pow(base: nat, n: nat): nat {
    if n == 0 then 1 else base * Pow(base, n - 1)
  }

  lemma Distributes(base: nat, x: nat, y: nat)
    ensures base * (x + y) == base * x + base * y
  {
  }

  lemma NotNegative(x: nat, y: nat)
    ensures x * y >= 0
  {
  }

  lemma Scaled(base: nat, a: nat, b: nat)
    ensures a < b ==> base * a + base <= base * b
    ensures a >= b ==> base * a >= base * b
  {
    if a < b {
      var gap := b - a - 1;
      Distributes(base, a, 1 + gap);
      Distributes(base, 1, gap);
      NotNegative(base, gap);
    } else {
      var gap := a - b;
      Distributes(base, b, gap);
      NotNegative(base, gap);
    }
  }

  /** A number below `base` to the `n` has at most `n` digits; one no smaller than it has more. */
  lemma {:induction false} DigitCount(v: nat, base: nat, n: nat)
    requires base >= 2
    ensures v < Pow(base, n) ==> |DigitsOf(v, base)| <= n
    ensures v >= Pow(base, n) ==> |DigitsOf(v, base)| > n
    decreases n
  {
    if n > 0 && v > 0 {
      HigherIsSmaller(v, base);
      var higher, p := v / base, Pow(base, n - 1);
      Scaled(base, higher, p);
      DigitCount(higher, base, n - 1);
    } else if n > 0 {
      PowPositive(base, n);
    }
  }

  lemma {:induction false} PowPositive(base: nat, n: nat)
    requires base >= 1
    ensures Pow(base, n) >= 1
  {
    if n > 0 {
      PowPositive(base, n - 1);
      Scaled(base, 1, Pow(base, n - 1));
    }
  }

  /** The upper digits of a number are the digits of its quotient. */
  lemma {:induction false} UpperDigits(v: nat, base: nat, n: nat)
    requires base >= 2 && v >= Pow(base, n)
    ensures Pow(base, n) > 0 && |DigitsOf(v, base)| >= n
    ensures DigitsOf(v, base)[n..] == DigitsOf(v / Pow(base, n), base)
    decreases n
  {
    PowPositive(base, n);
    DigitCount(v, base, n);
    if n > 0 {
      var p := Pow(base, n - 1);
      PowPositive(base, n - 1);
      HigherIsSmaller(v, base);
      Scaled(base, v / base, p);
      UpperDigits(v / base, base, n - 1);
      QuotientTwice(v, base, p);
      assert DigitsOf(v, base)[n..] == DigitsOf(v / base, base)[n - 1..];
    }
  }

  lemma Spread(a: nat, b: nat, q: nat, m: nat)
    ensures a * (b * q + m) == a * b * q + a * m
  {
    assert a * (b * q + m) == a * (b * q) + a * m;
    assert a * (b * q) == a * b * q;
  }

  lemma QuotientTwice(v: nat, a: nat, b: nat)
    requires a > 0 && b > 0
    ensures a * b > 0 && v / a / b == v / (a * b)
  {
    var h, r := v / a, v % a;
    var q, m := h / b, h % b;
    Scaled(a, 0, b);
    Recombined(v, a, b, h, r, q, m);
    LowestDigit(a * m + r, q, a * b);
  }

  lemma Recombined(v: nat, a: nat, b: nat, h: nat, r: nat, q: nat, m: nat)
    requires v == a * h + r && h == b * q + m && r < a && m < b
    ensures v == a * m + r + a * b * q && a * m + r < a * b
  {
    Spread(a, b, q, m);
    Scaled(a, m, b);
  }

  // ----- the numbers behind an Ed25519 key -----

  lemma {:induction false} ValueBelow(ds: seq<nat>, base: nat)
    requires Digits(ds, base) && base >= 1
    ensures Value(ds, base) < Pow(base, |ds|)
  {
    if ds != [] {
      ValueBelow(ds[1..], base);
      Scaled(base, Value(ds[1..], base), Pow(base, |ds| - 1));
    }
  }

  lemma {:induction false} ValueOfConcat(low: seq<nat>, high: seq<nat>, base: nat)
    ensures Value(low + high, base) == Value(low, base) + Pow(base, |low|) * Value(high, base)
  {
    if low == [] {
      assert low + high == high;
    } else {
      ValueOfConcat(low[1..], high, base);
      assert (low + high)[1..] == low[1..] + high;
      var p, h := Pow(base, |low| - 1), Value(high, base);
      assert base * (p * h) == base * p * h;
    }
  }

  const LOWEST: nat := 0xed01 * 0x1_0000000000000000_0000000000000000_0000000000000000_0000000000000000
  const SPAN: nat := 0x1_0000000000000000_0000000000000000_0000000000000000_0000000000000000

  lemma KeyNumber(key: PublicKey)
    ensures LOWEST <= Number(MULTICODEC + key, 256) < LOWEST + SPAN
  {
    var low: seq<nat> := Reversed(key);
    var high: seq<nat> := [0x01, 0xed];
    var bytes: seq<nat> := MULTICODEC + key;
    assert Reversed(bytes) == low + high;
    ValueOfConcat(low, high, 256);
    assert Value(high[1..], 256) == 0xed;
    assert Value(high, 256) == 0xed01;
    ValueBelow(low, 256);
    PowersOf256();
  }

  lemma PowersOf256()
    ensures Pow(256, 32) == SPAN
  {
    assert Pow(256, 8) == 0x1_0000000000000000;
    assert Pow(256, 16) == 0x1_0000000000000000_0000000000000000;
    assert Pow(256, 24) == 0x1_0000000000000000_0000000000000000_0000000000000000;
  }

  lemma PowersOf58()
    ensures Pow(58, 44) == 389790918707373377135528568990913592653094657612049369038476873218241589149696
  {
    assert Pow(58, 8) == 128063081718016;
    assert Pow(58, 16) == 16400152899115243850138976256;
    assert Pow(58, 24) == 2100254120907352485526230505830591911428096;
    assert Pow(58, 32) == 268965015114358137726910587140455987105619365599731777536;
    assert Pow(58, 40) == 34444488709877454747081479018851205589883534409595458615323760395288576;
  }

  /** The body of an Ed25519 `did:key` has 47 characters, and the first three are `6Mk`. */
  lemma BodyShape(key: PublicKey)
    ensures |Encode(MULTICODEC + key)| == 47
    ensures Encode(MULTICODEC + key)[..3] == [54, 77, 107]
  {
    var bytes := MULTICODEC + key;
    var digits := DigitsOf(Number(bytes, 256), 58);
    KeyDigits(key);
    var out := Converted(bytes, 256, 58);
    assert out == Reversed(digits);
    assert out[0] == digits[44..][2] && out[1] == digits[44..][1] && out[2] == digits[44..][0];
    assert LeadingFrom(bytes, 0) == 0 && bytes[0..] == bytes;
    assert Encode(bytes) == Repeated(ONE, 0) + EncodeBody(bytes);
  }

  lemma TopOfKey(n: nat)
    requires LOWEST <= n < LOWEST + SPAN
    ensures n >= Pow(58, 44) > 0 && n / Pow(58, 44) == 18023
  {
    PowersOf58();
  }

  lemma KeyDigits(key: PublicKey)
    ensures var digits := DigitsOf(Number(MULTICODEC + key, 256), 58);
      |digits| == 47 && digits[44..] == [43, 20, 5]
  {
    var n := Number(MULTICODEC + key, 256);
    KeyNumber(key);
    TopOfKey(n);
    UpperDigits(n, 58, 44);
    assert DigitsOf(5, 58) == [5];
    assert DigitsOf(310, 58) == [20, 5];
    assert DigitsOf(18023, 58) == [43, 20, 5];
  }

  // ----- the identifier -----

  /** Every identifier starts with `did:key:z6Mk`, has 56 characters, and is never cut off by the length cap. */
  lemma EveryIdStartsZ6Mk(key: PublicKey)
    ensures |EncodeEd25519(key)| == 56
    ensures EncodeEd25519(key)[..12] == PREFIX + [122, 54, 77, 107]
    ensures |EncodeEd25519(key)[9..]| <= MAX_B58_LEN
  {
    BodyShape(key);
    var body := Encode(MULTICODEC + key);
    assert body == body[..3] + body[3..];
  }

  lemma PrefixSplits(body: seq<byte>)
    ensures var did := PREFIX + ([MULTIBASE] + body);
      PREFIX <= did && did[8..] == [MULTIBASE] + body && did[8..][1..] == body
  {
  }

  /** Reading back gives the key, for every 32-byte key. */
  lemma DecodeOfEncodeKey(key: PublicKey)
    ensures DecodeEd25519(EncodeEd25519(key)) == Ok(key)
  {
    var bytes := MULTICODEC + key;
    BodyShape(key);
    PrefixSplits(Encode(bytes));
    DecodeOfEncode(bytes);
    assert bytes[2..] == key;
  }

  /** An identifier that is accepted is the one its key is written as: no key has two identifiers. */
  lemma EncodeOfDecodeKey(did: seq<byte>)
    ensures DecodeEd25519(did).Ok? ==> EncodeEd25519(DecodeEd25519(did).value) == did
  {
    if DecodeEd25519(did).Ok? {
      var body := did[8..][1..];
      BodyIsEncoded(body);
      Rejoins(did);
    }
  }

  lemma Rejoins(did: seq<byte>)
    requires PREFIX <= did && did[8..] != [] && did[8..][0] == MULTIBASE
    ensures did == PREFIX + ([MULTIBASE] + did[8..][1..])
  {
    assert did == did[..8] + did[8..] && did[8..] == [did[8..][0]] + did[8..][1..];
  }

  lemma BodyIsEncoded(body: seq<byte>)
    requires Decode(body).Some? && MULTICODEC <= Decode(body).value
    ensures Encode(MULTICODEC + Decode(body).value[2..]) == body
  {
    DecodesAlphabetStrings(body);
    EncodeOfDecode(body);
    var bytes := Decode(body).value;
    assert bytes == MULTICODEC + bytes[2..];
  }

  /** So distinct keys have distinct identifiers, and acceptance is exactly being the identifier of some key. */
  lemma AcceptedIffEncoded(did: seq<byte>)
    ensures DecodeEd25519(did).Ok? <==> exists key: PublicKey :: EncodeEd25519(key) == did
  {
    EncodeOfDecodeKey(did);
    if exists key: PublicKey :: EncodeEd25519(key) == did {
      var key: PublicKey :| EncodeEd25519(key) == did;
      DecodeOfEncodeKey(key);
    }
  }

  // ----- the code paths -----

  /** Writes an identifier of fixed length and beginning, from which the key can be read back. */
  method WriteEd25519(key: PublicKey) returns (did: seq<byte>)
    ensures did == EncodeEd25519(key)
    ensures DecodeEd25519(did) == Ok(key)
    ensures |did| == 56 && did[..12] == PREFIX + [122, 54, 77, 107]
  {
    DecodeOfEncodeKey(key);
    EveryIdStartsZ6Mk(key);
    var buffer := MULTICODEC + key;
    var body := B58Encode(buffer);
    did := PREFIX;
    did := did + [MULTIBASE];
    did := did + body;
  }

  /** Accepts exactly the identifiers of keys, and returns the one key whose identifier it is. */
  method ReadEd25519(did: seq<byte>) returns (key: Result<PublicKey, DidError>)
    ensures key == DecodeEd25519(did)
    ensures key.Ok? <==> exists k: PublicKey :: EncodeEd25519(k) == did
    ensures forall k: PublicKey :: EncodeEd25519(k) == did ==> key == Ok(k)
  {
    AcceptedIffEncoded(did);
    forall k: PublicKey | EncodeEd25519(k) == did
      ensures DecodeEd25519(did) == Ok(k)
    {
      DecodeOfEncodeKey(k);
    }
    if !(PREFIX <= did) { return Err(NotDidKey); }
    var tail := did[|PREFIX|..];
    if tail == [] || tail[0] != MULTIBASE { return Err(BadMultibase); }
    if |tail[1..]| > MAX_B58_LEN { return Err(BadLength); }
    var bytes := B58Decode(tail[1..]);
    if bytes.None? { return Err(BadBase58); }
    if !(MULTICODEC <= bytes.value) { return Err(UnsupportedMulticodec); }
    if |bytes.value[2..]| != 32 { return Err(BadLength); }
    return Ok(bytes.value[2..]);
  }
}
