/** Strict UTF-8: shortest forms only, no surrogates (the `char` type already excludes them). */
module Utf8 {
  import opened Wrappers
  import opened Bytes

  function EncodeChar(c: char): (b: seq<byte>)
    ensures 1 <= |b| <= 4
  {
    var n := c as int;
    if n < 0x80 then [n]
    else if n < 0x800 then [0xC0 + n / 64, 0x80 + n % 64]
    else if n < 0x1_0000 then [0xE0 + n / 4096, 0x80 + n / 64 % 64, 0x80 + n % 64]
    else [0xF0 + n / 262144, 0x80 + n / 4096 % 64, 0x80 + n / 64 % 64, 0x80 + n % 64]
  }

  predicate Continuation(b: byte) {
    0x80 <= b < 0xC0
  }

  /** The six payload bits of a continuation byte. */
  function Low(b: byte): (n: nat)
    requires Continuation(b)
    ensures n < 64
  {
    (b as int) - 0x80
  }

  predicate IsScalar(n: int) {
    0 <= n < 0xD800 || 0xE000 <= n < 0x11_0000
  }

  /** One scalar value off the front: the character and how many bytes it took. */
  function DecodeChar(b: seq<byte>): (r: Option<(char, nat)>)
    ensures r.Some? ==> 1 <= r.value.1 <= |b|
  {
    if |b| == 0 then None
    else
      var lead: int := b[0];
      if lead < 0x80 then Some((lead as char, 1))
      else if 0xC0 <= lead < 0xE0 && |b| >= 2 && Continuation(b[1]) then
        var n := (lead - 0xC0) * 64 + Low(b[1]);
        if n >= 0x80 then Some((n as char, 2)) else None
      else if 0xE0 <= lead < 0xF0 && |b| >= 3 && Continuation(b[1]) && Continuation(b[2]) then
        var n := (lead - 0xE0) * 4096 + Low(b[1]) * 64 + Low(b[2]);
        if n >= 0x800 && IsScalar(n) then Some((n as char, 3)) else None
      else if 0xF0 <= lead < 0xF8 && |b| >= 4 && Continuation(b[1]) && Continuation(b[2]) && Continuation(b[3]) then
        var n := (lead - 0xF0) * 262144 + Low(b[1]) * 4096 + Low(b[2]) * 64 + Low(b[3]);
        if n >= 0x1_0000 && IsScalar(n) then Some((n as char, 4)) else None
      else None
  }

  /** Base-64 digits: a number is its digits, and its digits are those of the number. */
  lemma Digits64(n: nat)
    ensures n == n / 64 * 64 + n % 64
    ensures n / 4096 == n / 64 / 64 && n / 262144 == n / 64 / 64 / 64
    ensures n == n / 4096 * 4096 + n / 64 % 64 * 64 + n % 64
    ensures n == n / 262144 * 262144 + n / 4096 % 64 * 4096 + n / 64 % 64 * 64 + n % 64
  {
    assert n / 4096 == n / 64 / 64;
    assert n / 262144 == n / 64 / 64 / 64;
  }

  lemma Undigits64(high: nat, low: nat)
    requires low < 64
    ensures (high * 64 + low) / 64 == high && (high * 64 + low) % 64 == low
  {
  }

  lemma DecodeCharOfEncode(c: char, rest: seq<byte>)
    ensures DecodeChar(EncodeChar(c) + rest) == Some((c, |EncodeChar(c)|))
  {
    var n := c as int;
    var e := EncodeChar(c);
    var b := e + rest;
    assert forall i :: 0 <= i < |e| ==> b[i] == e[i];
    Digits64(n);
    var d0, d1, d2 := n % 64, n / 64 % 64, n / 4096 % 64;
    if n < 0x80 {
    } else if n < 0x800 {
      assert Low(b[1]) == d0 && b[0] as int - 0xC0 == n / 64;
    } else if n < 0x1_0000 {
      assert Low(b[2]) == d0 && Low(b[1]) == d1 && b[0] as int - 0xE0 == n / 4096;
    } else {
      assert Low(b[3]) == d0 && Low(b[2]) == d1 && Low(b[1]) == d2 && b[0] as int - 0xF0 == n / 262144;
    }
  }

  lemma Digits4(a: nat, b: nat, c: nat, d: nat)
    requires b < 64 && c < 64 && d < 64
    ensures var n := a * 262144 + b * 4096 + c * 64 + d;
            n / 262144 == a && n / 4096 == a * 64 + b && n / 4096 % 64 == b && n / 64 % 64 == c && n % 64 == d
  {
    var n := a * 262144 + b * 4096 + c * 64 + d;
    var l := a * 64 + b;
    var m := l * 64 + c;
    assert n == m * 64 + d;
    Undigits64(m, d);
    Undigits64(l, c);
    Undigits64(a, b);
    Digits64(n);
  }

  lemma EncodeCharOfDecode(b: seq<byte>)
    requires DecodeChar(b).Some?
    ensures EncodeChar(DecodeChar(b).value.0) == b[..DecodeChar(b).value.1]
  {
    var lead: int := b[0];
    var (c, k) := DecodeChar(b).value;
    var n := c as int;
    if k == 1 {
      assert b[..1] == [b[0]];
    } else if k == 2 {
      Undigits64(lead - 0xC0, Low(b[1]));
      assert b[..2] == [b[0], b[1]];
    } else if k == 3 {
      Digits4(0, lead - 0xE0, Low(b[1]), Low(b[2]));
      assert b[..3] == [b[0], b[1], b[2]];
    } else {
      Digits4(lead - 0xF0, Low(b[1]), Low(b[2]), Low(b[3]));
      assert b[..4] == [b[0], b[1], b[2], b[3]];
    }
  }

  function Encode(s: string): seq<byte> {
    if s == [] then [] else EncodeChar(s[0]) + Encode(s[1..])
  }

  function Decode(b: seq<byte>): Option<string> {
    if b == [] then Some([])
    else match DecodeChar(b)
      case None => None
      case Some((c, k)) =>
        match Decode(b[k..])
        case None => None
        case Some(rest) => Some([c] + rest)
  }

  lemma {:induction false} DecodeOfEncode(s: string)
    ensures Decode(Encode(s)) == Some(s)
  {
    if s != [] {
      DecodeCharOfEncode(s[0], Encode(s[1..]));
      DecodeOfEncode(s[1..]);
      assert Encode(s) == EncodeChar(s[0]) + Encode(s[1..]);
      assert s == [s[0]] + s[1..];
      assert Encode(s)[|EncodeChar(s[0])|..] == Encode(s[1..]);
    }
  }

  lemma {:induction false} EncodeOfDecode(b: seq<byte>)
    requires Decode(b).Some?
    ensures Encode(Decode(b).value) == b
  {
    if b != [] {
      var (c, k) := DecodeChar(b).value;
      EncodeCharOfDecode(b);
      EncodeOfDecode(b[k..]);
      EncodeFirst(c, Decode(b[k..]).value);
      assert b == b[..k] + b[k..];
    }
  }

  lemma EncodeFirst(c: char, rest: string)
    ensures Encode([c] + rest) == EncodeChar(c) + Encode(rest)
  {
    assert ([c] + rest)[1..] == rest;
  }

  lemma EncodeInjective(s: string, t: string)
    requires Encode(s) == Encode(t)
    ensures s == t
  {
    DecodeOfEncode(s);
    DecodeOfEncode(t);
  }
}
