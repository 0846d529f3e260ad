/**
  Positional numerals and the base58 codec: both directions are one radix conversion by multiply-and-carry, and they
  are inverse to each other on all byte strings and all alphabet strings.
*/
module Base58 {
  import opened Wrappers
  import opened Bytes

  // ----- numerals, least significant digit first -----

  predicate Digits(ds: seq<nat>, base: nat) {
    forall i :: 0 <= i < |ds| ==> ds[i] < base
  }

  /** Digits with no superfluous zero at the top. */
  predicate Canonical(ds: seq<nat>, base: nat) {
    Digits(ds, base) && (ds != [] ==> ds[|ds| - 1] != 0)
  }

  function Value(ds: seq<nat>, base: nat): nat {
    if ds == [] then 0 else ds[0] + base * Value(ds[1..], base)
  }

  function DigitsOf(n: nat, base: nat): (ds: seq<nat>)
    requires base >= 2
    ensures Canonical(ds, base) && (n > 0 ==> ds != [])
    decreases n
  {
    if n == 0 then []
    else
      HigherIsSmaller(n, base);
      [n % base] + DigitsOf(n / base, base)
  }

  lemma HigherIsSmaller(n: nat, base: nat)
    requires n > 0 && base >= 2
    ensures n / base < n && (n / base == 0 ==> n % base == n)
    ensures n == base * (n / base) + n % base
  {
    if n < base { assert n / base == 0; }
  }

  lemma {:induction false} ValueOfDigits(n: nat, base: nat)
    requires base >= 2
    ensures Value(DigitsOf(n, base), base) == n
    decreases n
  {
    if n > 0 {
      HigherIsSmaller(n, base);
      ValueOfDigits(n / base, base);
    }
  }

  lemma MulSign(base: nat, gap: int)
    requires base >= 1
    ensures gap >= 1 ==> base * gap >= base
    ensures gap <= -1 ==> base * gap + base <= 0
  {
  }

  lemma LowestDigit(d: nat, rest: nat, base: nat)
    requires d < base
    ensures (d + base * rest) % base == d && (d + base * rest) / base == rest
  {
    var n := d + base * rest;
    assert n == base * (n / base) + n % base;
    var gap := rest - n / base;
    assert base * gap == n % base - d;
    MulSign(base, gap);
  }

  /** Canonical digits are the digits of their value. */
  lemma {:induction false} DigitsOfValue(ds: seq<nat>, base: nat)
    requires base >= 2 && Canonical(ds, base)
    ensures DigitsOf(Value(ds, base), base) == ds
    ensures ds != [] ==> Value(ds, base) > 0
  {
    if ds != [] {
      var rest := ds[1..];
      DigitsOfValue(rest, base);
      LowestDigit(ds[0], Value(rest, base), base);
      assert ds == [ds[0]] + rest;
      if rest != [] {
        assert rest[|rest| - 1] == ds[|ds| - 1];
        assert base * Value(rest, base) > 0;
      }
    }
  }

  // ----- multiply and add, digit by digit with a carry -----

  function MulAdd(ds: seq<nat>, base: nat, factor: nat, carry: nat): seq<nat>
    requires base >= 2
  {
    if ds == [] then DigitsOf(carry, base)
    else
      var n := carry + ds[0] * factor;
      [n % base] + MulAdd(ds[1..], base, factor, n / base)
  }

  lemma CarryStep(d: nat, rest: nat, base: nat, factor: nat, carry: nat)
    requires base >= 2
    ensures var n := carry + d * factor;
      n % base + base * (rest * factor + n / base) == (d + base * rest) * factor + carry
  {
    var n := carry + d * factor;
    assert n == base * (n / base) + n % base;
    assert base * (rest * factor + n / base) == base * (rest * factor) + base * (n / base);
    assert (d + base * rest) * factor == d * factor + base * (rest * factor);
  }

  lemma {:induction false} MulAddValue(ds: seq<nat>, base: nat, factor: nat, carry: nat)
    requires base >= 2
    ensures Value(MulAdd(ds, base, factor, carry), base) == Value(ds, base) * factor + carry
  {
    if ds == [] {
      ValueOfDigits(carry, base);
    } else {
      var n := carry + ds[0] * factor;
      MulAddValue(ds[1..], base, factor, n / base);
      CarryStep(ds[0], Value(ds[1..], base), base, factor, carry);
      assert MulAdd(ds, base, factor, carry)[1..] == MulAdd(ds[1..], base, factor, n / base);
    }
  }

  lemma {:induction false} MulAddDigits(ds: seq<nat>, base: nat, factor: nat, carry: nat)
    requires base >= 2
    ensures Digits(MulAdd(ds, base, factor, carry), base)
    ensures ds != [] || carry > 0 ==> MulAdd(ds, base, factor, carry) != []
  {
    if ds != [] { MulAddDigits(ds[1..], base, factor, (carry + ds[0] * factor) / base); }
  }

  function Top(ds: seq<nat>): nat
    requires ds != []
  {
    ds[|ds| - 1]
  }

  lemma TopIsNotZero(d: nat, base: nat, factor: nat, carry: nat)
    requires base >= 2 && factor >= 1 && d > 0
    ensures Top([(carry + d * factor) % base] + DigitsOf((carry + d * factor) / base, base)) != 0
  {
    var n := carry + d * factor;
    assert n >= 1 by { MulSign(factor, d); }
    HigherIsSmaller(n, base);
  }

  lemma {:induction false} MulAddTop(ds: seq<nat>, base: nat, factor: nat, carry: nat)
    requires base >= 2 && factor >= 1 && ds != [] && Top(ds) != 0
    ensures MulAdd(ds, base, factor, carry) != [] && Top(MulAdd(ds, base, factor, carry)) != 0
  {
    if |ds| == 1 {
      TopIsNotZero(ds[0], base, factor, carry);
    } else {
      MulAddTop(ds[1..], base, factor, (carry + ds[0] * factor) / base);
      assert Top(ds[1..]) == Top(ds);
    }
  }

  lemma MulAddCanonical(ds: seq<nat>, base: nat, factor: nat, carry: nat)
    requires base >= 2 && factor >= 1 && Canonical(ds, base)
    ensures Canonical(MulAdd(ds, base, factor, carry), base)
  {
    MulAddDigits(ds, base, factor, carry);
    if ds != [] { MulAddTop(ds, base, factor, carry); }
  }

  /** On the digits of `n` it gives the digits of `n * factor + add`. */
  lemma MulAddIsMulAdd(n: nat, base: nat, factor: nat, add: nat)
    requires base >= 2 && factor >= 1
    ensures MulAdd(DigitsOf(n, base), base, factor, add) == DigitsOf(n * factor + add, base)
  {
    var out := MulAdd(DigitsOf(n, base), base, factor, add);
    MulAddValue(DigitsOf(n, base), base, factor, add);
    ValueOfDigits(n, base);
    MulAddCanonical(DigitsOf(n, base), base, factor, add);
    DigitsOfValue(out, base);
  }

  lemma CarryStaysSmall(d: nat, base: nat, factor: nat, carry: nat)
    requires base >= 2 && d < base && carry < factor
    ensures (carry + d * factor) / base < factor
    ensures carry + d * factor < base * factor
  {
    var n, room := carry + d * factor, base - 1 - d;
    assert room * factor >= 0;
    assert base * factor == d * factor + room * factor + factor;
    assert n == base * (n / base) + n % base;
    var gap := n / base - factor;
    assert base * gap == base * (n / base) - base * factor;
    assert gap >= 0 ==> base * gap >= 0;
  }

  /** One step of the carry over the remaining digits. */
  lemma MulAddStep(done: seq<nat>, ds: seq<nat>, base: nat, factor: nat, carry: nat)
    requires base >= 2 && ds != []
    ensures var n := carry + ds[0] * factor;
      done + MulAdd(ds, base, factor, carry) == (done + [n % base]) + MulAdd(ds[1..], base, factor, n / base)
  {
  }

  /** One digit of the inner loops: what stays and what is carried on. */
  method Split(d: nat, base: nat, factor: nat, carry: nat) returns (n: nat, low: nat, high: nat)
    requires base >= 2 && d < base && carry < factor
    ensures n == carry + d * factor && low == n % base && high == n / base && high < factor
  {
    CarryStaysSmall(d, base, factor, carry);
    n := carry + d * factor;
    low, high := n % base, n / base;
  }

  /** The inner loop of both codecs: the carry stays below the factor, so below 256, and no product exceeds 58 * 256. */
  method Multiply(digits: seq<nat>, base: nat, factor: nat, add: nat) returns (out: seq<nat>, carry: nat)
    requires base >= 2 && add < factor && Digits(digits, base)
    ensures out + DigitsOf(carry, base) == MulAdd(digits, base, factor, add) && carry < factor
  {
    out, carry := digits, add;
    for i := 0 to |digits|
      invariant |out| == |digits| && out[i..] == digits[i..] && carry < factor
      invariant out[..i] + MulAdd(digits[i..], base, factor, carry) == MulAdd(digits, base, factor, add)
    {
      assert out[i] == out[i..][0] == digits[i] && digits[i..][1..] == digits[i + 1..];
      var d, low, high := Split(out[i], base, factor, carry);
      MulAddStep(out[..i], digits[i..], base, factor, carry);
      ghost var before := out[..i];
      out, carry := out[i := low], high;
      assert out[..i + 1] == before + [low];
    }
    assert digits[|digits|..] == [] && out[..|digits|] == out;
  }

  /** One more top digit, and the smaller carry that is left. */
  method Spill(digits: seq<nat>, base: nat, carry: nat) returns (out: seq<nat>, rest: nat)
    requires base >= 2 && carry > 0
    ensures rest < carry
    ensures out + DigitsOf(rest, base) == digits + DigitsOf(carry, base)
  {
    HigherIsSmaller(carry, base);
    out := digits + [carry % base];
    rest := carry / base;
  }

  /** What is left of the carry becomes new top digits. */
  method PushCarry(digits: seq<nat>, base: nat, left: nat) returns (out: seq<nat>)
    requires base >= 2
    ensures out == digits + DigitsOf(left, base)
  {
    out := digits;
    var carry: nat := left;
    while carry > 0
      invariant out + DigitsOf(carry, base) == digits + DigitsOf(left, base)
    {
      out, carry := Spill(out, base, carry);
    }
    assert out + [] == out;
  }

  method Shift(digits: seq<nat>, base: nat, factor: nat, add: nat) returns (out: seq<nat>)
    requires base >= 2 && add < factor && Digits(digits, base)
    ensures out == MulAdd(digits, base, factor, add)
  {
    var low, carry := Multiply(digits, base, factor, add);
    out := PushCarry(low, base, carry);
  }

  // ----- radix conversion, most significant digit first -----

  function Reversed<T>(s: seq<T>): (r: seq<T>)
    ensures |r| == |s|
    ensures forall i :: 0 <= i < |s| ==> r[i] == s[|s| - 1 - i]
  {
    if s == [] then [] else Reversed(s[1..]) + [s[0]]
  }

  lemma ReversedTwice<T>(s: seq<T>)
    ensures Reversed(Reversed(s)) == s
  {
  }

  /** The number that big-endian digits denote. */
  function Number(ds: seq<nat>, base: nat): nat {
    Value(Reversed(ds), base)
  }

  function Converted(ds: seq<nat>, source: nat, target: nat): (out: seq<nat>)
    requires target >= 2
    ensures Digits(out, target) && (out != [] ==> out[0] != 0)
  {
    Reversed(DigitsOf(Number(ds, source), target))
  }

  lemma ConvertedBack(ds: seq<nat>, source: nat, target: nat)
    requires source >= 2 && target >= 2 && Digits(ds, source) && (ds != [] ==> ds[0] != 0)
    ensures Converted(Converted(ds, source, target), target, source) == ds
  {
    var n := Number(ds, source);
    ReversedTwice(DigitsOf(n, target));
    ValueOfDigits(n, target);
    DigitsOfValue(Reversed(ds), source);
    ReversedTwice(ds);
  }

  lemma NumberOfMore(ds: seq<nat>, d: nat, base: nat)
    ensures Number(ds + [d], base) == Number(ds, base) * base + d
  {
    assert Reversed(ds + [d]) == [d] + Reversed(ds);
    assert ([d] + Reversed(ds))[1..] == Reversed(ds);
  }

  /** The outer loop of both codecs, on the digits after the leading zeros. */
  method Convert(ds: seq<nat>, source: nat, target: nat) returns (out: seq<nat>)
    requires source >= 2 && target >= 2 && Digits(ds, source)
    ensures out == Converted(ds, source, target)
  {
    var acc: seq<nat> := [];
    for i := 0 to |ds|
      invariant acc == DigitsOf(Number(ds[..i], source), target)
    {
      NumberOfMore(ds[..i], ds[i], source);
      assert ds[..i + 1] == ds[..i] + [ds[i]];
      MulAddIsMulAdd(Number(ds[..i], source), target, source, ds[i]);
      acc := Shift(acc, target, source, ds[i]);
    }
    assert ds[..|ds|] == ds;
    out := Reversed(acc);
  }

  // ----- the alphabet -----

  const SIZE: nat := 58

  /** `123456789ABCDEFGHJKLMNPQRSTUVWXYZabcdefghijkmnopqrstuvwxyz`: six runs of consecutive characters. */
  function Letter(d: nat): byte
    requires d < SIZE
  {
    if d < 9 then 49 + d
    else if d < 17 then 65 + (d - 9)
    else if d < 22 then 74 + (d - 17)
    else if d < 33 then 80 + (d - 22)
    else if d < 44 then 97 + (d - 33)
    else 109 + (d - 44)
  }

  /** The first position of a character at or after `i`. */
  function PositionFrom(c: byte, i: nat): (p: Option<nat>)
    requires i <= SIZE
    ensures p.Some? ==> i <= p.value < SIZE && Letter(p.value) == c
    ensures p.None? ==> forall j :: i <= j < SIZE ==> Letter(j) != c
    decreases SIZE - i
  {
    if i == SIZE then None else if Letter(i) == c then Some(i) else PositionFrom(c, i + 1)
  }

  function Position(c: byte): Option<nat> {
    PositionFrom(c, 0)
  }

  lemma PositionOf(d: nat)
    requires d < SIZE
    ensures Position(Letter(d)) == Some(d)
  {
    var p := Position(Letter(d)).value;
  }

  predicate InAlphabet(s: seq<byte>) {
    forall i :: 0 <= i < |s| ==> Position(s[i]).Some?
  }

  function Letters(ds: seq<nat>): (s: seq<byte>)
    requires Digits(ds, SIZE)
    ensures |s| == |ds| && forall i :: 0 <= i < |s| ==> s[i] == Letter(ds[i])
  {
    if ds == [] then [] else Letters(ds[..|ds| - 1]) + [Letter(ds[|ds| - 1])]
  }

  function Positions(s: seq<byte>): (ds: seq<nat>)
    requires InAlphabet(s)
    ensures |ds| == |s| && Digits(ds, SIZE)
    ensures forall i :: 0 <= i < |s| ==> Position(s[i]) == Some(ds[i])
  {
    if s == [] then [] else Positions(s[..|s| - 1]) + [Position(s[|s| - 1]).value]
  }

  // ----- the codec -----

  function LeadingFrom(s: seq<byte>, b: byte): (n: nat)
    ensures n <= |s|
    ensures forall i :: 0 <= i < n ==> s[i] == b
    ensures n < |s| ==> s[n] != b
  {
    if s == [] || s[0] != b then 0 else 1 + LeadingFrom(s[1..], b)
  }

  function Repeated(b: byte, n: nat): (s: seq<byte>)
    ensures |s| == n && forall i :: 0 <= i < n ==> s[i] == b
  {
    if n == 0 then [] else [b] + Repeated(b, n - 1)
  }

  const ONE: byte := 49

  function EncodeBody(bytes: seq<byte>): seq<byte> {
    Letters(Converted(bytes, 256, SIZE))
  }

  function Encode(input: seq<byte>): seq<byte> {
    var zeros := LeadingFrom(input, 0);
    Repeated(ONE, zeros) + EncodeBody(input[zeros..])
  }

  /** The bytes of base-256 digits. */
  function AsBytes(ds: seq<nat>): (b: seq<byte>)
    requires Digits(ds, 256)
    ensures |b| == |ds| && forall i :: 0 <= i < |b| ==> b[i] == ds[i]
  {
    if ds == [] then [] else AsBytes(ds[..|ds| - 1]) + [ds[|ds| - 1]]
  }

  function DecodeBody(letters: seq<byte>): seq<byte>
    requires InAlphabet(letters)
  {
    AsBytes(Converted(Positions(letters), SIZE, 256))
  }

  /** Nothing for a character outside the alphabet. */
  function Decode(input: seq<byte>): Option<seq<byte>> {
    var zeros := LeadingFrom(input, ONE);
    if InAlphabet(input[zeros..]) then Some(Repeated(0, zeros) + DecodeBody(input[zeros..])) else None
  }

  method WriteLetters(digits: seq<nat>) returns (out: seq<byte>)
    requires Digits(digits, SIZE)
    ensures out == Letters(digits)
  {
    out := [];
    for i := 0 to |digits|
      invariant out == Letters(digits[..i])
    {
      assert digits[..i + 1][..i] == digits[..i];
      out := out + [Letter(digits[i])];
    }
    assert digits[..|digits|] == digits;
  }

  method B58Encode(input: seq<byte>) returns (out: seq<byte>)
    ensures out == Encode(input)
  {
    var zeros := LeadingFrom(input, 0);
    var digits := Convert(input[zeros..], 256, SIZE);
    var letters := WriteLetters(digits);
    out := Repeated(ONE, zeros) + letters;
  }

  /** The bytes so far, when the letters of `done` are read. */
  ghost predicate Read(done: seq<byte>, bytes: seq<nat>) {
    InAlphabet(done) && bytes == DigitsOf(Number(Positions(done), SIZE), 256)
  }

  lemma PositionsOfMore(done: seq<byte>, c: byte)
    requires InAlphabet(done) && Position(c).Some?
    ensures InAlphabet(done + [c]) && Positions(done + [c]) == Positions(done) + [Position(c).value]
  {
    var longer := done + [c];
    assert longer[..|longer| - 1] == done;
    forall i | 0 <= i < |longer| ensures Position(longer[i]).Some? {
      if i < |done| { assert longer[i] == done[i]; }
    }
  }

  lemma ReadOne(done: seq<byte>, c: byte, bytes: seq<nat>)
    requires Read(done, bytes) && Position(c).Some?
    ensures Read(done + [c], MulAdd(bytes, 256, SIZE, Position(c).value))
    ensures Digits(bytes, 256)
  {
    var ds, d := Positions(done), Position(c).value;
    PositionsOfMore(done, c);
    NumberOfMore(ds, d, SIZE);
    MulAddIsMulAdd(Number(ds, SIZE), 256, SIZE, d);
  }

  /** The bytes of the letters, least significant first; nothing if one of them is not in the alphabet. */
  method ReadLetters(letters: seq<byte>) returns (bytes: Option<seq<nat>>)
    ensures bytes.None? <==> !InAlphabet(letters)
    ensures bytes.Some? ==> Read(letters, bytes.value)
  {
    var acc: seq<nat> := [];
    for i := 0 to |letters|
      invariant Read(letters[..i], acc)
    {
      var pos := Position(letters[i]);
      if pos.None? { return None; }
      ReadOne(letters[..i], letters[i], acc);
      assert letters[..i + 1] == letters[..i] + [letters[i]];
      acc := Shift(acc, 256, SIZE, pos.value);
    }
    assert letters[..|letters|] == letters;
    return Some(acc);
  }

  method B58Decode(input: seq<byte>) returns (out: Option<seq<byte>>)
    ensures out == Decode(input)
  {
    var zeros := LeadingFrom(input, ONE);
    var bytes := ReadLetters(input[zeros..]);
    if bytes.None? { return None; }
    out := Some(Repeated(0, zeros) + AsBytes(Reversed(bytes.value)));
  }

  // ----- the bijection -----

  lemma LeadingOf(b: byte, n: nat, rest: seq<byte>)
    requires rest != [] ==> rest[0] != b
    ensures LeadingFrom(Repeated(b, n) + rest, b) == n
    ensures (Repeated(b, n) + rest)[n..] == rest
  {
    var s := Repeated(b, n) + rest;
    var m := LeadingFrom(s, b);
    assert n < |s| ==> s[n] == rest[0];
    assert forall i :: 0 <= i < n ==> s[i] == b;
  }

  lemma PositionsOfLetters(ds: seq<nat>)
    requires Digits(ds, SIZE)
    ensures InAlphabet(Letters(ds)) && Positions(Letters(ds)) == ds
  {
    forall i | 0 <= i < |ds| ensures Position(Letters(ds)[i]) == Some(ds[i]) { PositionOf(ds[i]); }
    assert Positions(Letters(ds)) == ds;
  }

  lemma LettersOfPositions(s: seq<byte>)
    requires InAlphabet(s)
    ensures Letters(Positions(s)) == s
  {
  }

  /** A body without leading zeros is written in letters that do not start with a 1, and read back. */
  lemma BodyRoundTrip(bytes: seq<byte>)
    requires bytes != [] ==> bytes[0] != 0
    ensures var letters := EncodeBody(bytes);
      InAlphabet(letters) && (letters != [] ==> letters[0] != ONE) && DecodeBody(letters) == bytes
  {
    var digits: seq<nat> := bytes;
    var letters := Converted(digits, 256, SIZE);
    PositionsOfLetters(letters);
    ConvertedBack(digits, 256, SIZE);
    assert AsBytes(digits) == bytes;
  }

  /** Letters that do not start with a 1 are read as bytes without leading zeros, and written back. */
  lemma LettersRoundTrip(letters: seq<byte>)
    requires InAlphabet(letters) && (letters != [] ==> letters[0] != ONE)
    ensures var bytes := DecodeBody(letters);
      (bytes != [] ==> bytes[0] != 0) && EncodeBody(bytes) == letters
  {
    var digits := Positions(letters);
    assert letters != [] ==> Position(letters[0]) == Some(digits[0]);
    ConvertedBack(digits, SIZE, 256);
    assert AsBytes(Converted(digits, SIZE, 256)) == Converted(digits, SIZE, 256);
    LettersOfPositions(letters);
  }

  lemma Rejoined(s: seq<byte>, b: byte)
    ensures var n := LeadingFrom(s, b); Repeated(b, n) + s[n..] == s
  {
  }

  /** Decoding undoes encoding, for every byte string. */
  lemma DecodeOfEncode(input: seq<byte>)
    ensures Decode(Encode(input)) == Some(input)
  {
    var zeros := LeadingFrom(input, 0);
    BodyRoundTrip(input[zeros..]);
    LeadingOf(ONE, zeros, EncodeBody(input[zeros..]));
    Rejoined(input, 0);
  }

  /** Encoding undoes decoding, for every string over the alphabet. */
  lemma EncodeOfDecode(input: seq<byte>)
    requires InAlphabet(input)
    ensures Decode(input).Some? && Encode(Decode(input).value) == input
  {
    var zeros := LeadingFrom(input, ONE);
    assert InAlphabet(input[zeros..]);
    LettersRoundTrip(input[zeros..]);
    LeadingOf(0, zeros, DecodeBody(input[zeros..]));
    Rejoined(input, ONE);
  }

  /** Decoding succeeds exactly on strings over the alphabet. */
  lemma DecodesAlphabetStrings(input: seq<byte>)
    ensures Decode(input).Some? <==> InAlphabet(input)
  {
    var zeros := LeadingFrom(input, ONE);
    PositionOf(0);
    if InAlphabet(input[zeros..]) {
      forall i | 0 <= i < |input| ensures Position(input[i]).Some? {
        if i >= zeros { assert input[i] == input[zeros..][i - zeros]; }
      }
    } else {
      var i :| 0 <= i < |input[zeros..]| && Position(input[zeros..][i]).None?;
      assert input[zeros..][i] == input[zeros + i];
    }
  }
}
