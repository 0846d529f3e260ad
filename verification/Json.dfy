/**
  Canonical JSON text and a parser of it. Every text is written before a `rest`, so that what follows a value never
  blurs into it: the parser recovers the value and the rest.
*/
module Json {
  import opened Wrappers
  import Decimal
  import Utf16

  /** A parsed value. A number is an integer or some float; object equality is equality of maps. */
  datatype Value =
    | Null | Bool(b: bool) | Int(n: int) | Float(bits: nat)
    | Str(s: string) | Arr(items: seq<Value>) | Obj(fields: map<string, Value>)

  // ----- text -----

  function HexDigit(n: nat): char
    requires n < 16
  {
    if n < 10 then '0' + n as char else 'a' + (n - 10) as char
  }

  /** The minimal escaping of section 3.2.2.2 of RFC 8785. */
  function Escaped(c: char): (s: string)
    ensures s != []
  {
    if c == '"' then "\\\""
    else if c == '\\' then "\\\\"
    else if c == '\U{0008}' then "\\b"
    else if c == '\U{0009}' then "\\t"
    else if c == '\U{000A}' then "\\n"
    else if c == '\U{000C}' then "\\f"
    else if c == '\U{000D}' then "\\r"
    else if c < '\U{0020}' then ['\\', 'u', '0', '0', HexDigit(c as int / 16), HexDigit(c as int % 16)]
    else [c]
  }

  function CharsThen(s: string, rest: string): string {
    if s == [] then rest else Escaped(s[0]) + CharsThen(s[1..], rest)
  }

  function StringThen(s: string, rest: string): string {
    ['"'] + CharsThen(s, ['"'] + rest)
  }

  function IntText(n: int): (s: string)
    ensures s != []
  {
    if n < 0 then ['-'] + Decimal.Print(-n) else Decimal.Print(n)
  }

  /** The canonical text of a value, before `rest`: members in key order, no white space. A float has no text. */
  ghost function TextThen(v: Value, rest: string): string
    decreases v, 1, 0
  {
    match v
    case Null => "null" + rest
    case Bool(true) => "true" + rest
    case Bool(false) => "false" + rest
    case Int(n) => IntText(n) + rest
    case Float(_) => rest
    case Str(s) => StringThen(s, rest)
    case Arr(items) => ['['] + if items == [] then [']'] + rest else ItemsThen(items, rest)
    case Obj(fields) =>
      var keys := Utf16.Sorted(fields.Keys);
      ['{'] + if keys == [] then ['}'] + rest else FieldsThen(keys, v, rest)
  }

  /** One or more items, then the closing bracket. */
  ghost function ItemsThen(items: seq<Value>, rest: string): string
    requires items != []
    decreases items
  {
    TextThen(items[0], if |items| == 1 then [']'] + rest else [','] + ItemsThen(items[1..], rest))
  }

  ghost predicate AllIn(keys: seq<string>, obj: Value) {
    obj.Obj? && forall k :: k in keys ==> k in obj.fields
  }

  /** One or more members, then the closing brace. */
  ghost function FieldsThen(keys: seq<string>, obj: Value, rest: string): string
    requires keys != [] && AllIn(keys, obj)
    decreases obj, 0, |keys|
  {
    StringThen(keys[0], [':'] + TextThen(obj.fields[keys[0]],
      if |keys| == 1 then ['}'] + rest else [','] + FieldsThen(keys[1..], obj, rest)))
  }

  predicate FloatFree(v: Value) {
    match v
    case Float(_) => false
    case Arr(items) => forall i :: 0 <= i < |items| ==> FloatFree(items[i])
    case Obj(fields) => forall k :: k in fields ==> FloatFree(fields[k])
    case _ => true
  }

  // ----- the parser -----

  function HexValue(c: char): Option<nat> {
    if '0' <= c <= '9' then Some(c as nat - '0' as nat)
    else if 'a' <= c <= 'f' then Some(c as nat - 'a' as nat + 10)
    else None
  }

  /** One character of a string literal, and how long its text is. */
  function ParseChar(s: string): (r: Option<(char, nat)>)
    ensures r.Some? ==> 1 <= r.value.1 <= |s|
  {
    if s == [] || s[0] == '"' || s[0] < '\U{0020}' then None
    else if s[0] != '\\' then Some((s[0], 1))
    else if |s| < 2 then None
    else if s[1] == '"' then Some(('"', 2))
    else if s[1] == '\\' then Some(('\\', 2))
    else if s[1] == 'b' then Some(('\U{0008}', 2))
    else if s[1] == 't' then Some(('\U{0009}', 2))
    else if s[1] == 'n' then Some(('\U{000A}', 2))
    else if s[1] == 'f' then Some(('\U{000C}', 2))
    else if s[1] == 'r' then Some(('\U{000D}', 2))
    else if |s| >= 6 && s[1] == 'u' && s[2] == '0' && s[3] == '0' && HexValue(s[4]).Some? && HexValue(s[5]).Some? then
      Some(((16 * HexValue(s[4]).value + HexValue(s[5]).value) as char, 6))
    else None
  }

  /** The rest of a string literal after its opening quote. */
  function ParseChars(s: string, acc: string): (r: Option<(string, string)>)
    ensures r.Some? ==> |r.value.1| < |s|
    decreases |s|
  {
    if s != [] && s[0] == '"' then Some((acc, s[1..]))
    else match ParseChar(s)
      case None => None
      case Some((c, k)) => ParseChars(s[k..], acc + [c])
  }

  function LeadingDigits(s: string): (n: nat)
    ensures n <= |s| && Decimal.AllDigits(s[..n])
    ensures n < |s| ==> !Decimal.IsDigit(s[n])
  {
    if s == [] || !Decimal.IsDigit(s[0]) then 0
    else
      var n := LeadingDigits(s[1..]);
      assert s[..n + 1] == [s[0]] + s[1..][..n];
      n + 1
  }

  function ParseInt(s: string): (r: Option<(Value, string)>)
    ensures r.Some? ==> |r.value.1| < |s|
  {
    var negative := s != [] && s[0] == '-';
    var digits := if negative then s[1..] else s;
    var n := LeadingDigits(digits);
    if n == 0 then None
    else
      var magnitude: int := Decimal.Value(digits[..n]);
      Some((Int(if negative then -magnitude else magnitude), digits[n..]))
  }

  function ParseValue(s: string): (r: Option<(Value, string)>)
    ensures r.Some? ==> |r.value.1| < |s|
    decreases |s|, 0
  {
    if s == [] then None
    else if "null" <= s then Some((Null, s[4..]))
    else if "true" <= s then Some((Bool(true), s[4..]))
    else if "false" <= s then Some((Bool(false), s[5..]))
    else if s[0] == '"' then
      match ParseChars(s[1..], [])
      case None => None
      case Some((text, rest)) => Some((Str(text), rest))
    else if s[0] == '[' then
      if |s| > 1 && s[1] == ']' then Some((Arr([]), s[2..])) else ParseItems(s[1..], [])
    else if s[0] == '{' then
      if |s| > 1 && s[1] == '}' then Some((Obj(map[]), s[2..])) else ParseFields(s[1..], map[])
    else ParseInt(s)
  }

  function ParseItems(s: string, acc: seq<Value>): (r: Option<(Value, string)>)
    ensures r.Some? ==> |r.value.1| < |s|
    decreases |s|, 1
  {
    match ParseValue(s)
    case None => None
    case Some((v, rest)) =>
      if rest != [] && rest[0] == ',' then ParseItems(rest[1..], acc + [v])
      else if rest != [] && rest[0] == ']' then Some((Arr(acc + [v]), rest[1..]))
      else None
  }

  function ParseFields(s: string, acc: map<string, Value>): (r: Option<(Value, string)>)
    ensures r.Some? ==> |r.value.1| < |s|
    decreases |s|, 1
  {
    if s == [] || s[0] != '"' then None
    else match ParseChars(s[1..], [])
      case None => None
      case Some((key, after)) =>
        if after == [] || after[0] != ':' then None
        else match ParseValue(after[1..])
          case None => None
          case Some((v, rest)) =>
            if rest != [] && rest[0] == ',' then ParseFields(rest[1..], acc[key := v])
            else if rest != [] && rest[0] == '}' then Some((Obj(acc[key := v]), rest[1..]))
            else None
  }

  // ----- the parser recovers what was written -----

  lemma ParseCharOf(c: char, rest: string)
    ensures ParseChar(Escaped(c) + rest) == Some((c, |Escaped(c)|))
    ensures (Escaped(c) + rest)[0] != '"'
    ensures (Escaped(c) + rest)[|Escaped(c)|..] == rest
  {
    var s := Escaped(c) + rest;
    assert forall i :: 0 <= i < |Escaped(c)| ==> s[i] == Escaped(c)[i];
  }

  lemma {:induction false} ParseCharsOf(s: string, acc: string, rest: string)
    ensures ParseChars(CharsThen(s, ['"'] + rest), acc) == Some((acc + s, rest))
    decreases |s|
  {
    if s == [] {
      assert acc + s == acc && (['"'] + rest)[1..] == rest;
    } else {
      ParseCharOf(s[0], CharsThen(s[1..], ['"'] + rest));
      ParseCharsOf(s[1..], acc + [s[0]], rest);
      Regroup(acc, s);
    }
  }

  lemma ParseStringOf(s: string, rest: string)
    ensures StringThen(s, rest)[0] == '"'
    ensures ParseChars(StringThen(s, rest)[1..], []) == Some((s, rest))
  {
    assert StringThen(s, rest)[1..] == CharsThen(s, ['"'] + rest);
    ParseCharsOf(s, [], rest);
    assert [] + s == s;
  }

  /** What may follow a number: nothing, or no digit. */
  predicate Stops(rest: string) {
    rest == [] || !Decimal.IsDigit(rest[0])
  }

  lemma {:induction false} LeadingDigitsOf(digits: string, rest: string)
    requires Decimal.AllDigits(digits) && Stops(rest)
    ensures LeadingDigits(digits + rest) == |digits|
  {
    if digits == [] {
      assert digits + rest == rest;
    } else {
      LeadingDigitsOf(digits[1..], rest);
      assert (digits + rest)[1..] == digits[1..] + rest;
    }
  }

  lemma ParseIntOf(n: int, rest: string)
    requires Stops(rest)
    ensures ParseInt(IntText(n) + rest) == Some((Int(n), rest))
  {
    var magnitude: nat := if n < 0 then -n else n;
    var digits := Decimal.Print(magnitude);
    Decimal.ValueOfPrint(magnitude);
    assert Decimal.IsDigit(digits[0]);
    ParseDigitsOf(digits, rest);
    if n < 0 { assert (['-'] + digits + rest)[1..] == digits + rest; }
  }

  lemma ParseDigitsOf(digits: string, rest: string)
    requires Decimal.AllDigits(digits) && Stops(rest)
    ensures var s := digits + rest;
      LeadingDigits(s) == |digits| && s[..|digits|] == digits && s[|digits|..] == rest
  {
    LeadingDigitsOf(digits, rest);
  }

  // ----- whole values -----

  lemma KeywordsOf(rest: string)
    ensures ParseValue("null" + rest) == Some((Null, rest))
    ensures ParseValue("true" + rest) == Some((Bool(true), rest))
    ensures ParseValue("false" + rest) == Some((Bool(false), rest))
  {
    assert ("null" + rest)[4..] == rest && ("true" + rest)[4..] == rest && ("false" + rest)[5..] == rest;
    assert ("null" + rest)[..4] == "null" && ("true" + rest)[..4] == "true" && ("false" + rest)[..5] == "false";
    assert ("true" + rest)[0] == 't' && ("false" + rest)[0] == 'f';
  }

  /** No keyword starts like this. */
  lemma NoKeyword(s: string)
    requires s != [] && s[0] !in "ntf"
    ensures !("null" <= s) && !("true" <= s) && !("false" <= s)
  {
  }

  lemma ParseNumberOf(n: int, rest: string)
    requires Stops(rest)
    ensures ParseValue(IntText(n) + rest) == Some((Int(n), rest))
  {
    var s := IntText(n) + rest;
    assert s[0] == IntText(n)[0];
    assert s[0] == '-' || Decimal.IsDigit(s[0]);
    NoKeyword(s);
    ParseIntOf(n, rest);
  }

  lemma ParseTextOf(text: string, rest: string)
    ensures ParseValue(StringThen(text, rest)) == Some((Str(text), rest))
  {
    ParseStringOf(text, rest);
    NoKeyword(StringThen(text, rest));
  }

  /** The first character of a value's text: never a closing bracket. */
  lemma FirstOfText(v: Value, rest: string)
    requires !v.Float?
    ensures TextThen(v, rest) != [] && TextThen(v, rest)[0] != ']'
  {
    if v.Int? { assert (IntText(v.n) + rest)[0] == IntText(v.n)[0]; }
  }

  lemma FirstOfItems(items: seq<Value>, rest: string)
    requires items != [] && !items[0].Float?
    ensures ItemsThen(items, rest) != [] && ItemsThen(items, rest)[0] != ']'
  {
    FirstOfText(items[0], if |items| == 1 then [']'] + rest else [','] + ItemsThen(items[1..], rest));
  }

  lemma EmptyArrayOf(rest: string)
    ensures ParseValue(['['] + ([']'] + rest)) == Some((Arr([]), rest))
  {
    var s := ['['] + ([']'] + rest);
    NoKeyword(s);
    assert s[2..] == rest;
  }

  lemma EmptyObjectOf(rest: string)
    ensures ParseValue(['{'] + (['}'] + rest)) == Some((Obj(map[]), rest))
  {
    var s := ['{'] + (['}'] + rest);
    NoKeyword(s);
    assert s[2..] == rest;
  }

  lemma OpenArray(inner: string)
    requires inner != [] && inner[0] != ']'
    ensures ParseValue(['['] + inner) == ParseItems(inner, [])
  {
    NoKeyword(['['] + inner);
    assert (['['] + inner)[1..] == inner;
  }

  lemma OpenObject(inner: string)
    requires inner != [] && inner[0] == '"'
    ensures ParseValue(['{'] + inner) == ParseFields(inner, map[])
  {
    NoKeyword(['{'] + inner);
    assert (['{'] + inner)[1..] == inner;
  }

  lemma OneItem(s: string, acc: seq<Value>, v: Value, rest: string)
    ensures ParseValue(s) == Some((v, [','] + rest)) ==> ParseItems(s, acc) == ParseItems(rest, acc + [v])
    ensures ParseValue(s) == Some((v, [']'] + rest)) ==> ParseItems(s, acc) == Some((Arr(acc + [v]), rest))
  {
    assert ([','] + rest)[1..] == rest && ([']'] + rest)[1..] == rest;
  }

  /** One member: its key, a colon, its value's text `value`, and what the parser finds after it. */
  lemma OneField(key: string, value: string, acc: map<string, Value>, v: Value, rest: string)
    ensures ParseValue(value) == Some((v, [','] + rest)) ==>
      ParseFields(StringThen(key, [':'] + value), acc) == ParseFields(rest, acc[key := v])
    ensures ParseValue(value) == Some((v, ['}'] + rest)) ==>
      ParseFields(StringThen(key, [':'] + value), acc) == Some((Obj(acc[key := v]), rest))
  {
    ParseStringOf(key, [':'] + value);
    assert ([':'] + value)[1..] == value;
    assert ([','] + rest)[1..] == rest && (['}'] + rest)[1..] == rest;
  }

  /** The parser recovers every float-free value from its canonical text, and leaves what follows. */
  lemma {:induction false} ParseOfText(v: Value, rest: string)
    requires FloatFree(v) && Stops(rest)
    ensures ParseValue(TextThen(v, rest)) == Some((v, rest))
    decreases v, 2, 0
  {
    match v
    case Null => KeywordsOf(rest);
    case Bool(_) => KeywordsOf(rest);
    case Int(n) => ParseNumberOf(n, rest);
    case Str(s) => ParseTextOf(s, rest);
    case Arr(_) => ParseArrayOf(v, rest);
    case Obj(_) => ParseObjectOf(v, rest);
  }

  lemma {:induction false} ParseArrayOf(v: Value, rest: string)
    requires v.Arr? && FloatFree(v) && Stops(rest)
    ensures ParseValue(TextThen(v, rest)) == Some((v, rest))
    decreases v, 1, 0
  {
    if v.items == [] {
      EmptyArrayOf(rest);
    } else {
      assert FloatFree(v.items[0]);
      ParseItemsOf(v.items, [], rest);
      FirstOfItems(v.items, rest);
      OpenArray(ItemsThen(v.items, rest));
      assert [] + v.items == v.items;
    }
  }

  lemma {:induction false} ParseObjectOf(v: Value, rest: string)
    requires v.Obj? && FloatFree(v) && Stops(rest)
    ensures ParseValue(TextThen(v, rest)) == Some((v, rest))
    decreases v, 1, 0
  {
    var keys := Utf16.Sorted(v.fields.Keys);
    Utf16.NoElements(keys);
    if keys == [] {
      EmptyObjectOf(rest);
      assert v.fields == map[];
    } else {
      ParseFieldsOf(keys, v, map[], rest);
      OpenObject(FieldsThen(keys, v, rest));
      assert map[] + (map k | k in keys :: v.fields[k]) == v.fields;
    }
  }

  lemma {:induction false} ParseItemsOf(items: seq<Value>, acc: seq<Value>, rest: string)
    requires items != [] && Stops(rest) && forall i :: 0 <= i < |items| ==> FloatFree(items[i])
    ensures ParseItems(ItemsThen(items, rest), acc) == Some((Arr(acc + items), rest))
    decreases items
  {
    if |items| == 1 {
      ParseOfText(items[0], [']'] + rest);
      LastItem(items, acc, rest);
    } else {
      ParseOfText(items[0], [','] + ItemsThen(items[1..], rest));
      NextItem(items, acc, rest);
      ParseItemsOf(items[1..], acc + [items[0]], rest);
      Regroup(acc, items);
    }
  }

  lemma Regroup<T>(acc: seq<T>, items: seq<T>)
    requires items != []
    ensures acc + [items[0]] + items[1..] == acc + items
  {
  }

  lemma LastItem(items: seq<Value>, acc: seq<Value>, rest: string)
    requires |items| == 1 && ParseValue(TextThen(items[0], [']'] + rest)) == Some((items[0], [']'] + rest))
    ensures ParseItems(ItemsThen(items, rest), acc) == Some((Arr(acc + items), rest))
  {
    OneItem(TextThen(items[0], [']'] + rest), acc, items[0], rest);
    assert acc + items == acc + [items[0]];
  }

  lemma NextItem(items: seq<Value>, acc: seq<Value>, rest: string)
    requires |items| > 1
    requires var tail := [','] + ItemsThen(items[1..], rest); ParseValue(TextThen(items[0], tail)) == Some((items[0], tail))
    ensures ParseItems(ItemsThen(items, rest), acc) == ParseItems(ItemsThen(items[1..], rest), acc + [items[0]])
  {
    OneItem(TextThen(items[0], [','] + ItemsThen(items[1..], rest)), acc, items[0], ItemsThen(items[1..], rest));
  }

  lemma {:induction false} ParseFieldsOf(keys: seq<string>, obj: Value, acc: map<string, Value>, rest: string)
    requires keys != [] && Stops(rest) && AllIn(keys, obj) && FloatFree(obj)
    ensures ParseFields(FieldsThen(keys, obj, rest), acc) ==
            Some((Obj(acc + map k | k in keys :: obj.fields[k]), rest))
    decreases obj, 0, |keys|
  {
    var v := obj.fields[keys[0]];
    if |keys| == 1 {
      ParseOfText(v, ['}'] + rest);
      LastField(keys, obj, acc, rest);
    } else {
      ParseOfText(v, [','] + FieldsThen(keys[1..], obj, rest));
      NextField(keys, obj, acc, rest);
      ParseFieldsOf(keys[1..], obj, acc[keys[0] := v], rest);
      FieldsAccumulate(keys, obj, acc);
    }
  }

  lemma LastField(keys: seq<string>, obj: Value, acc: map<string, Value>, rest: string)
    requires |keys| == 1 && AllIn(keys, obj)
    requires var v := obj.fields[keys[0]]; ParseValue(TextThen(v, ['}'] + rest)) == Some((v, ['}'] + rest))
    ensures ParseFields(FieldsThen(keys, obj, rest), acc) ==
            Some((Obj(acc + map k | k in keys :: obj.fields[k]), rest))
  {
    var v := obj.fields[keys[0]];
    OneField(keys[0], TextThen(v, ['}'] + rest), acc, v, rest);
    assert acc + (map k | k in keys :: obj.fields[k]) == acc[keys[0] := v];
  }

  lemma NextField(keys: seq<string>, obj: Value, acc: map<string, Value>, rest: string)
    requires |keys| > 1 && AllIn(keys, obj)
    requires var v, tail := obj.fields[keys[0]], [','] + FieldsThen(keys[1..], obj, rest);
      ParseValue(TextThen(v, tail)) == Some((v, tail))
    ensures ParseFields(FieldsThen(keys, obj, rest), acc) ==
            ParseFields(FieldsThen(keys[1..], obj, rest), acc[keys[0] := obj.fields[keys[0]]])
  {
    var v, tail := obj.fields[keys[0]], [','] + FieldsThen(keys[1..], obj, rest);
    OneField(keys[0], TextThen(v, tail), acc, v, FieldsThen(keys[1..], obj, rest));
  }

  lemma FieldsAccumulate(keys: seq<string>, obj: Value, acc: map<string, Value>)
    requires keys != [] && AllIn(keys, obj)
    ensures acc + (map k | k in keys :: obj.fields[k]) ==
            acc[keys[0] := obj.fields[keys[0]]] + (map k | k in keys[1..] :: obj.fields[k])
  {
    assert keys == [keys[0]] + keys[1..];
  }
}
