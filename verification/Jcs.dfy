/**
  Canonical JSON: the writer as it runs, when it refuses, and what its bytes determine. Integers are printed
  verbatim, not by section 3.2.2.3 of RFC 8785; floats are refused.
*/
module Jcs {
  import opened Wrappers
  import opened Bytes
  import opened Json
  import Decimal
  import Utf8
  import Utf16

  datatype JcsError = FloatNumber | NotObject | TooDeep

  const MAX_DEPTH: nat := 128

  // ----- when a value is refused -----

  /** The first complaint in writing order. */
  ghost function Fault(v: Value, depth: nat): Option<JcsError>
    decreases v, 1, 0
  {
    if depth > MAX_DEPTH then Some(TooDeep)
    else match v
      case Float(_) => Some(FloatNumber)
      case Arr(items) => ItemsFault(items, depth + 1)
      case Obj(fields) => FieldsFault(Utf16.Sorted(fields.Keys), v, depth + 1)
      case _ => None
  }

  ghost function ItemsFault(items: seq<Value>, depth: nat): Option<JcsError>
    decreases items
  {
    if items == [] then None
    else
      var first := Fault(items[0], depth);
      if first.Some? then first else ItemsFault(items[1..], depth)
  }

  ghost function FieldsFault(keys: seq<string>, obj: Value, depth: nat): Option<JcsError>
    requires AllIn(keys, obj)
    decreases obj, 0, |keys|
  {
    if keys == [] then None
    else
      var first := Fault(obj.fields[keys[0]], depth);
      if first.Some? then first else FieldsFault(keys[1..], obj, depth)
  }

  /** No more than `room` containers deep. */
  predicate Within(v: Value, room: int) {
    room >= 0 &&
    match v
    case Arr(items) => forall i :: 0 <= i < |items| ==> Within(items[i], room - 1)
    case Obj(fields) => forall k :: k in fields ==> Within(fields[k], room - 1)
    case _ => true
  }

  predicate Writable(v: Value, room: int) {
    FloatFree(v) && Within(v, room)
  }

  /** A value is written exactly when it holds no float and nests no deeper than the limit. */
  lemma {:induction false} FaultIff(v: Value, depth: nat)
    ensures Fault(v, depth).None? <==> Writable(v, MAX_DEPTH - depth)
    decreases v, 1, 0
  {
    if depth <= MAX_DEPTH {
      match v
      case Arr(items) => ItemsFaultIff(items, depth + 1);
      case Obj(fields) =>
        var keys := Utf16.Sorted(fields.Keys);
        FieldsFaultIff(keys, v, depth + 1);
        assert forall k :: k in keys <==> k in Utf16.Elements(keys);
      case _ =>
    }
  }

  lemma {:induction false} ItemsFaultIff(items: seq<Value>, depth: nat)
    ensures ItemsFault(items, depth).None? <==>
            forall i :: 0 <= i < |items| ==> Writable(items[i], MAX_DEPTH - depth)
    decreases items
  {
    if items != [] {
      FaultIff(items[0], depth);
      ItemsFaultIff(items[1..], depth);
      assert forall i :: 0 < i < |items| ==> items[i] == items[1..][i - 1];
    }
  }

  lemma {:induction false} FieldsFaultIff(keys: seq<string>, obj: Value, depth: nat)
    requires AllIn(keys, obj)
    ensures FieldsFault(keys, obj, depth).None? <==>
            forall k :: k in keys ==> Writable(obj.fields[k], MAX_DEPTH - depth)
    decreases obj, 0, |keys|
  {
    if keys != [] {
      FaultIff(obj.fields[keys[0]], depth);
      FieldsFaultIff(keys[1..], obj, depth);
      assert forall k :: k in keys <==> k == keys[0] || k in keys[1..];
    }
  }

  // ----- the canonical form -----

  ghost function Text(v: Value): string { TextThen(v, []) }

  ghost function Canonical(v: Value): Result<seq<byte>, JcsError> {
    match Fault(v, 0)
    case Some(e) => Err(e)
    case None => Ok(Utf8.Encode(Text(v)))
  }

  /** A reader of canonical bytes. */
  function Reparse(bytes: seq<byte>): Option<Value> {
    match Utf8.Decode(bytes)
    case None => None
    case Some(text) =>
      match ParseValue(text)
      case None => None
      case Some((v, rest)) => if rest == [] then Some(v) else None
  }

  /** Every float-free value of depth at most 128 has canonical bytes, and is recovered from them; no other value has. */
  lemma CanonicalIsReadable(v: Value)
    ensures Canonical(v).Ok? <==> Writable(v, MAX_DEPTH)
    ensures Canonical(v).Ok? ==> Reparse(Canonical(v).value) == Some(v)
  {
    FaultIff(v, 0);
    if Canonical(v).Ok? {
      Utf8.DecodeOfEncode(Text(v));
      ParseOfText(v, []);
    }
  }

  /** Equal bytes mean equal values: objects as maps, whatever order their members came in. */
  lemma CanonicalIsInjective(v: Value, w: Value)
    requires Canonical(v).Ok? && Canonical(w).Ok?
    ensures Canonical(v) == Canonical(w) <==> v == w
  {
    CanonicalIsReadable(v);
    CanonicalIsReadable(w);
  }

  /** Canonicalising the reparse of canonical bytes gives the same bytes. */
  lemma CanonicalIsStable(v: Value)
    requires Canonical(v).Ok?
    ensures Reparse(Canonical(v).value).Some? && Canonical(Reparse(Canonical(v).value).value) == Canonical(v)
  {
    CanonicalIsReadable(v);
  }

  // ----- the writer -----

  lemma {:induction false} EncodeConcat(s: string, t: string)
    ensures Utf8.Encode(s + t) == Utf8.Encode(s) + Utf8.Encode(t)
  {
    if s == [] {
      assert s + t == t;
    } else {
      EncodeConcat(s[1..], t);
      assert (s + t)[1..] == s[1..] + t;
    }
  }

  /** Appending the bytes of the next part of the text. */
  lemma Emitted(out: seq<byte>, part: string, bytes: seq<byte>, rest: string)
    requires bytes == Utf8.Encode(part)
    ensures (out + bytes) + Utf8.Encode(rest) == out + Utf8.Encode(part + rest)
  {
    EncodeConcat(part, rest);
    Associative(out, bytes, Utf8.Encode(rest));
  }

  lemma Ascii(c: char)
    requires c < '\U{0080}'
    ensures Utf8.Encode([c]) == [c as int]
  {
    assert [c][1..] == [];
  }

  lemma Ascii2(c: char, d: char)
    requires c < '\U{0080}' && d < '\U{0080}'
    ensures Utf8.Encode([c, d]) == [c as int, d as int]
  {
    Ascii(c);
    Ascii(d);
    EncodeConcat([c], [d]);
    assert [c, d] == [c] + [d];
  }

  function HexLower(nibble: nat): byte
    requires nibble < 16
  {
    if nibble <= 9 then 0x30 + nibble else 0x61 + (nibble - 10)
  }

  lemma ControlBytes(c: char)
    requires c < '\U{0020}'
    ensures Utf8.Encode(['\\', 'u', '0', '0', HexDigit(c as int / 16), HexDigit(c as int % 16)]) ==
            [0x5C, 0x75, 0x30, 0x30, HexLower(c as int / 16), HexLower(c as int % 16)]
  {
    var h, l := HexDigit(c as int / 16), HexDigit(c as int % 16);
    Ascii2('\\', 'u');
    Ascii2('0', '0');
    Ascii2(h, l);
    EncodeConcat(['\\', 'u'], ['0', '0']);
    EncodeConcat(['\\', 'u'] + ['0', '0'], [h, l]);
    assert ['\\', 'u', '0', '0', h, l] == ['\\', 'u'] + ['0', '0'] + [h, l];
  }

  method WriteChar(out: seq<byte>, c: char) returns (grown: seq<byte>)
    ensures grown == out + Utf8.Encode(Escaped(c))
  {
    if c == '"' {
      Ascii2('\\', '"');
      grown := out + [0x5C, 0x22];
    } else if c == '\\' {
      Ascii2('\\', '\\');
      grown := out + [0x5C, 0x5C];
    } else if c == '\U{0008}' {
      Ascii2('\\', 'b');
      grown := out + [0x5C, 0x62];
    } else if c == '\U{0009}' {
      Ascii2('\\', 't');
      grown := out + [0x5C, 0x74];
    } else if c == '\U{000A}' {
      Ascii2('\\', 'n');
      grown := out + [0x5C, 0x6E];
    } else if c == '\U{000C}' {
      Ascii2('\\', 'f');
      grown := out + [0x5C, 0x66];
    } else if c == '\U{000D}' {
      Ascii2('\\', 'r');
      grown := out + [0x5C, 0x72];
    } else if c < '\U{0020}' {
      ControlBytes(c);
      var code := c as int;
      grown := out + [0x5C, 0x75, 0x30, 0x30];
      grown := grown + [HexLower(code / 16)];
      grown := grown + [HexLower(code % 16)];
    } else {
      assert [c][1..] == [];
      grown := out + Utf8.EncodeChar(c);
    }
  }

  /** `rest` is what the caller still has to write. */
  method WriteString(out: seq<byte>, s: string, ghost rest: string) returns (grown: seq<byte>)
    ensures grown + Utf8.Encode(rest) == out + Utf8.Encode(StringThen(s, rest))
  {
    ghost var quoted := ['"'] + rest;
    Ascii('"');
    grown := out + [0x22];
    Emitted(out, ['"'], [0x22], CharsThen(s, quoted));
    for i := 0 to |s|
      invariant grown + Utf8.Encode(CharsThen(s[i..], quoted)) == out + Utf8.Encode(StringThen(s, rest))
    {
      assert s[i..][1..] == s[i + 1..];
      Emitted(grown, Escaped(s[i]), Utf8.Encode(Escaped(s[i])), CharsThen(s[i + 1..], quoted));
      grown := WriteChar(grown, s[i]);
    }
    Emitted(grown, ['"'], [0x22], rest);
    grown := grown + [0x22];
  }

  method WriteText(out: seq<byte>, part: string, ghost rest: string) returns (grown: seq<byte>)
    ensures grown + Utf8.Encode(rest) == out + Utf8.Encode(part + rest)
  {
    grown := out + Utf8.Encode(part);
    Emitted(out, part, Utf8.Encode(part), rest);
  }

  /** What an array still has to write before its item `i`. */
  ghost function ItemsFrom(items: seq<Value>, i: nat, rest: string): string
    requires i <= |items|
  {
    if i == |items| then [']'] + rest
    else (if i == 0 then [] else [',']) + ItemsThen(items[i..], rest)
  }

  ghost function FieldsFrom(keys: seq<string>, obj: Value, i: nat, rest: string): string
    requires i <= |keys| && AllIn(keys, obj)
  {
    if i == |keys| then ['}'] + rest
    else (if i == 0 then [] else [',']) + FieldsThen(keys[i..], obj, rest)
  }

  lemma ItemStep(items: seq<Value>, i: nat, rest: string, depth: nat)
    requires i < |items|
    ensures ItemsFrom(items, i, rest) == (if i == 0 then [] else [',']) + TextThen(items[i], ItemsFrom(items, i + 1, rest))
    ensures ItemsFault(items[i..], depth) ==
      if Fault(items[i], depth).Some? then Fault(items[i], depth) else ItemsFault(items[i + 1..], depth)
  {
    assert items[i..][1..] == items[i + 1..];
  }

  lemma FieldStep(keys: seq<string>, obj: Value, i: nat, rest: string, depth: nat)
    requires i < |keys| && AllIn(keys, obj)
    ensures FieldsFrom(keys, obj, i, rest) == (if i == 0 then [] else [',']) +
      StringThen(keys[i], [':'] + TextThen(obj.fields[keys[i]], FieldsFrom(keys, obj, i + 1, rest)))
    ensures FieldsFault(keys[i..], obj, depth) ==
      if Fault(obj.fields[keys[i]], depth).Some? then Fault(obj.fields[keys[i]], depth)
      else FieldsFault(keys[i + 1..], obj, depth)
  {
    assert keys[i..][1..] == keys[i + 1..];
  }

  method WriteValue(out: seq<byte>, v: Value, depth: nat, ghost rest: string)
    returns (grown: seq<byte>, fault: Option<JcsError>)
    ensures fault == Fault(v, depth)
    ensures fault.None? ==> grown + Utf8.Encode(rest) == out + Utf8.Encode(TextThen(v, rest))
    decreases v, 2
  {
    if depth > MAX_DEPTH { return out, Some(TooDeep); }
    fault := None;
    match v {
      case Null => grown := WriteText(out, "null", rest);
      case Bool(b) =>
        if b { grown := WriteText(out, "true", rest); } else { grown := WriteText(out, "false", rest); }
      case Int(n) => grown := WriteText(out, IntText(n), rest);
      case Float(_) => grown, fault := out, Some(FloatNumber);
      case Str(s) => grown := WriteString(out, s, rest);
      case Arr(items) => grown, fault := WriteArray(out, v, depth, rest);
      case Obj(fields) => grown, fault := WriteObject(out, v, depth, rest);
    }
  }

  method WriteArray(out: seq<byte>, v: Value, depth: nat, ghost rest: string)
    returns (grown: seq<byte>, fault: Option<JcsError>)
    requires v.Arr? && depth <= MAX_DEPTH
    ensures fault == Fault(v, depth)
    ensures fault.None? ==> grown + Utf8.Encode(rest) == out + Utf8.Encode(TextThen(v, rest))
    decreases v, 1
  {
    var items := v.items;
    assert items[0..] == items;
    assert ['['] + ItemsFrom(items, 0, rest) == TextThen(v, rest);
    grown := WriteText(out, ['['], ItemsFrom(items, 0, rest));
    for i := 0 to |items|
      invariant ItemsFault(items[i..], depth + 1) == ItemsFault(items, depth + 1)
      invariant grown + Utf8.Encode(ItemsFrom(items, i, rest)) == out + Utf8.Encode(TextThen(v, rest))
    {
      ghost var tail := ItemsFrom(items, i + 1, rest);
      ItemStep(items, i, rest, depth + 1);
      if i > 0 { grown := WriteText(grown, [','], TextThen(items[i], tail)); }
      grown, fault := WriteValue(grown, items[i], depth + 1, tail);
      if fault.Some? { return; }
    }
    fault := None;
    grown := WriteText(grown, [']'], rest);
  }

  /** The members in the order of `keys`, each after its comma. */
  method WriteMember(out: seq<byte>, v: Value, keys: seq<string>, i: nat, depth: nat, ghost rest: string)
    returns (grown: seq<byte>, fault: Option<JcsError>)
    requires i < |keys| && AllIn(keys, v)
    ensures fault == Fault(v.fields[keys[i]], depth)
    ensures fault.None? ==> grown + Utf8.Encode(FieldsFrom(keys, v, i + 1, rest)) ==
                            out + Utf8.Encode(FieldsFrom(keys, v, i, rest))
    decreases v, 0
  {
    ghost var tail := FieldsFrom(keys, v, i + 1, rest);
    ghost var value := TextThen(v.fields[keys[i]], tail);
    FieldStep(keys, v, i, rest, depth);
    ghost var member := StringThen(keys[i], [':'] + value);
    assert [] + member == member;
    grown := out;
    if i > 0 { grown := WriteText(out, [','], member); }
    grown := WriteString(grown, keys[i], [':'] + value);
    grown := WriteText(grown, [':'], value);
    grown, fault := WriteValue(grown, v.fields[keys[i]], depth, tail);
  }

  method WriteObject(out: seq<byte>, v: Value, depth: nat, ghost rest: string)
    returns (grown: seq<byte>, fault: Option<JcsError>)
    requires v.Obj? && depth <= MAX_DEPTH
    ensures fault == Fault(v, depth)
    ensures fault.None? ==> grown + Utf8.Encode(rest) == out + Utf8.Encode(TextThen(v, rest))
    decreases v, 1
  {
    var keys := Utf16.SortKeys(v.fields.Keys);
    Utf16.AscendingIsUnique(keys, Utf16.Sorted(v.fields.Keys));
    assert forall k :: k in keys <==> k in Utf16.Elements(keys);
    assert keys[0..] == keys;
    assert ['{'] + FieldsFrom(keys, v, 0, rest) == TextThen(v, rest);
    grown := WriteText(out, ['{'], FieldsFrom(keys, v, 0, rest));
    for i := 0 to |keys|
      invariant FieldsFault(keys[i..], v, depth + 1) == FieldsFault(keys, v, depth + 1)
      invariant grown + Utf8.Encode(FieldsFrom(keys, v, i, rest)) == out + Utf8.Encode(TextThen(v, rest))
    {
      FieldStep(keys, v, i, rest, depth + 1);
      grown, fault := WriteMember(grown, v, keys, i, depth + 1, rest);
      if fault.Some? { return; }
    }
    fault := None;
    grown := WriteText(grown, ['}'], rest);
  }

  method ToCanonical(v: Value) returns (r: Result<seq<byte>, JcsError>)
    ensures r == Canonical(v)
  {
    var out, fault := WriteValue([], v, 0, []);
    if fault.Some? { return Err(fault.value); }
    assert out == out + Utf8.Encode([]) && [] + Utf8.Encode(Text(v)) == Utf8.Encode(Text(v));
    return Ok(out);
  }

  // ----- field selection -----

  function Chosen(fields: map<string, Value>, names: set<string>): map<string, Value> {
    map k | k in fields && k in names :: fields[k]
  }

  ghost function CanonicalSubset(v: Value, names: set<string>): Result<seq<byte>, JcsError> {
    if v.Obj? then Canonical(Obj(Chosen(v.fields, names))) else Err(NotObject)
  }

  method WriteSubset(v: Value, names: seq<string>) returns (r: Result<seq<byte>, JcsError>)
    ensures r == CanonicalSubset(v, Utf16.Elements(names))
  {
    if !v.Obj? { return Err(NotObject); }
    var sub: map<string, Value> := map[];
    for i := 0 to |names|
      invariant sub == Chosen(v.fields, Utf16.Elements(names[..i]))
    {
      assert Utf16.Elements(names[..i + 1]) == Utf16.Elements(names[..i]) + {names[i]};
      if names[i] in v.fields { sub := sub[names[i] := v.fields[names[i]]]; }
    }
    assert names[..|names|] == names;
    r := ToCanonical(Obj(sub));
  }

  method WriteExcluding(v: Value, exclude: seq<string>) returns (r: Result<seq<byte>, JcsError>)
    ensures r == if v.Obj? then CanonicalSubset(v, v.fields.Keys - Utf16.Elements(exclude)) else Err(NotObject)
  {
    if !v.Obj? { return Err(NotObject); }
    var sub: map<string, Value> := map[];
    var todo := v.fields.Keys;
    while todo != {}
      invariant todo <= v.fields.Keys
      invariant sub == Chosen(v.fields, v.fields.Keys - Utf16.Elements(exclude) - todo)
    {
      var k :| k in todo;
      if k !in exclude { sub := sub[k := v.fields[k]]; }
      todo := todo - {k};
    }
    assert v.fields.Keys - Utf16.Elements(exclude) - todo == v.fields.Keys - Utf16.Elements(exclude);
    r := ToCanonical(Obj(sub));
  }

  /** Two objects have the same selected bytes exactly when they agree on the selected members: which of them are
      there, and their values. Nothing else about the objects, nor the order of the selection, matters. */
  lemma SelectionDetermines(v: Value, w: Value, names: set<string>)
    requires v.Obj? && w.Obj? && CanonicalSubset(v, names).Ok? && CanonicalSubset(w, names).Ok?
    ensures CanonicalSubset(v, names) == CanonicalSubset(w, names) <==>
      forall k :: k in names ==>
        (k in v.fields <==> k in w.fields) && (k in v.fields && k in w.fields ==> v.fields[k] == w.fields[k])
  {
    var a, b := Chosen(v.fields, names), Chosen(w.fields, names);
    CanonicalIsInjective(Obj(a), Obj(b));
    if a == b {
      forall k | k in names
        ensures k in v.fields <==> k in w.fields
        ensures k in v.fields && k in w.fields ==> v.fields[k] == w.fields[k]
      {
        assert k in v.fields <==> k in a;
        assert k in w.fields <==> k in b;
        if k in v.fields && k in w.fields { assert a[k] == b[k]; }
      }
    }
  }
}
