/** UTF-16 code units, and the order of object keys by them (section 3.2.3 of RFC 8785). */
module Utf16 {
  datatype Ordering = Less | Equal | Greater

  function Units(c: char): (u: seq<nat>)
    ensures 1 <= |u| <= 2
  {
    var n := c as nat;
    if n < 0x1_0000 then [n] else [0xD800 + (n - 0x1_0000) / 1024, 0xDC00 + (n - 0x1_0000) % 1024]
  }

  function Encode(s: string): seq<nat> {
    if s == [] then [] else Units(s[0]) + Encode(s[1..])
  }

  lemma UnitsInjective(c: char, d: char, r: seq<nat>, t: seq<nat>)
    requires Units(c) + r == Units(d) + t
    ensures c == d && r == t
  {
    var m, n := c as nat, d as nat;
    var a, b := Units(c) + r, Units(d) + t;
    assert a[0] == Units(c)[0] && b[0] == Units(d)[0];
    if m >= 0x1_0000 && n >= 0x1_0000 {
      assert a[1] == Units(c)[1] && b[1] == Units(d)[1];
      assert m - 0x1_0000 == (m - 0x1_0000) / 1024 * 1024 + (m - 0x1_0000) % 1024;
      assert n - 0x1_0000 == (n - 0x1_0000) / 1024 * 1024 + (n - 0x1_0000) % 1024;
    }
    assert a[|Units(c)|..] == r && b[|Units(d)|..] == t;
  }

  lemma {:induction false} EncodeInjective(s: string, t: string)
    requires Encode(s) == Encode(t)
    ensures s == t
  {
    if s != [] && t != [] {
      UnitsInjective(s[0], t[0], Encode(s[1..]), Encode(t[1..]));
      EncodeInjective(s[1..], t[1..]);
      assert s == [s[0]] + s[1..] && t == [t[0]] + t[1..];
    }
  }

  /** Lexicographic, a proper prefix first. */
  function Compare(a: seq<nat>, b: seq<nat>): Ordering {
    if a == [] then (if b == [] then Equal else Less)
    else if b == [] then Greater
    else if a[0] == b[0] then Compare(a[1..], b[1..])
    else if a[0] < b[0] then Less
    else Greater
  }

  function KeyOrder(a: string, b: string): Ordering {
    Compare(Encode(a), Encode(b))
  }

  lemma {:induction false} CompareEqual(a: seq<nat>, b: seq<nat>)
    ensures Compare(a, b) == Equal <==> a == b
  {
    if a != [] && b != [] {
      CompareEqual(a[1..], b[1..]);
      assert a == [a[0]] + a[1..] && b == [b[0]] + b[1..];
    }
  }

  lemma {:induction false} CompareFlips(a: seq<nat>, b: seq<nat>)
    ensures Compare(a, b) == Less <==> Compare(b, a) == Greater
  {
    if a != [] && b != [] { CompareFlips(a[1..], b[1..]); }
  }

  lemma {:induction false} CompareTransitive(a: seq<nat>, b: seq<nat>, c: seq<nat>)
    requires Compare(a, b) == Less && Compare(b, c) == Less
    ensures Compare(a, c) == Less
  {
    if a != [] && b != [] && c != [] && a[0] == b[0] == c[0] { CompareTransitive(a[1..], b[1..], c[1..]); }
  }

  /** A total order on keys: exactly one of less, equal and greater, equal only for equal keys, and transitive. */
  lemma KeyOrderIsTotal(a: string, b: string, c: string)
    ensures KeyOrder(a, b) == Equal <==> a == b
    ensures KeyOrder(a, b) == Less <==> KeyOrder(b, a) == Greater
    ensures KeyOrder(a, b) == Less && KeyOrder(b, c) == Less ==> KeyOrder(a, c) == Less
  {
    CompareEqual(Encode(a), Encode(b));
    if Encode(a) == Encode(b) { EncodeInjective(a, b); }
    CompareFlips(Encode(a), Encode(b));
    if KeyOrder(a, b) == Less && KeyOrder(b, c) == Less { CompareTransitive(Encode(a), Encode(b), Encode(c)); }
  }

  /** `utf16_cmp`: the two unit streams side by side. */
  method Utf16Cmp(a: string, b: string) returns (o: Ordering)
    ensures o == KeyOrder(a, b)
  {
    var x, y := Encode(a), Encode(b);
    var i := 0;
    while true
      invariant i <= |x| && i <= |y| && Compare(x[i..], y[i..]) == Compare(x, y)
      decreases |x| - i
    {
      if i < |x| && i < |y| {
        if x[i] != y[i] { return if x[i] < y[i] then Less else Greater; }
        assert x[i..][1..] == x[i + 1..] && y[i..][1..] == y[i + 1..];
        i := i + 1;
      } else if i < |x| {
        return Greater;
      } else if i < |y| {
        return Less;
      } else {
        return Equal;
      }
    }
  }

  // ----- sorting keys -----

  ghost predicate Ascending(keys: seq<string>) {
    forall i, j :: 0 <= i < j < |keys| ==> KeyOrder(keys[i], keys[j]) == Less
  }

  ghost function Elements(keys: seq<string>): set<string> { set k | k in keys }

  lemma NoElements(a: seq<string>)
    ensures Elements(a) == {} <==> a == []
  {
    if a != [] { assert a[0] in Elements(a); }
  }

  /** Sorted in order, a set of keys is one sequence: whatever order they were met in. */
  lemma {:induction false} AscendingIsUnique(a: seq<string>, b: seq<string>)
    requires Ascending(a) && Ascending(b) && Elements(a) == Elements(b)
    ensures a == b
  {
    if a == [] || b == [] {
      NoElements(a);
      NoElements(b);
    } else {
      FirstIsLeast(a, b);
      FirstIsLeast(b, a);
      KeyOrderIsTotal(a[0], b[0], a[0]);
      RestElements(a);
      RestElements(b);
      AscendingIsUnique(a[1..], b[1..]);
      assert a == [a[0]] + a[1..] && b == [b[0]] + b[1..];
    }
  }

  lemma FirstIsLeast(a: seq<string>, b: seq<string>)
    requires Ascending(a) && a != [] && b != [] && Elements(a) == Elements(b)
    ensures a[0] == b[0] || KeyOrder(a[0], b[0]) == Less
  {
    assert b[0] in Elements(a);
    var i :| 0 <= i < |a| && a[i] == b[0];
  }

  lemma RestElements(a: seq<string>)
    requires Ascending(a) && a != []
    ensures Ascending(a[1..]) && Elements(a[1..]) == Elements(a) - {a[0]}
  {
    forall k | k in a[1..] ensures k != a[0] {
      var i :| 0 <= i < |a[1..]| && a[1..][i] == k;
      KeyOrderIsTotal(a[0], a[i + 1], a[0]);
    }
    assert a == [a[0]] + a[1..];
  }

  /** Insertion into sorted keys: the sort itself is the library's in the original. */
  method InsertKey(sorted: seq<string>, key: string) returns (out: seq<string>)
    requires Ascending(sorted) && key !in sorted
    ensures Ascending(out) && Elements(out) == Elements(sorted) + {key}
  {
    var i := 0;
    while i < |sorted|
      invariant i <= |sorted|
      invariant forall j :: 0 <= j < i ==> KeyOrder(sorted[j], key) == Less
    {
      var o := Utf16Cmp(sorted[i], key);
      if o != Less { break; }
      i := i + 1;
    }
    out := sorted[..i] + [key] + sorted[i..];
    if i < |sorted| { Between(sorted, key, i); }
    assert sorted == sorted[..i] + sorted[i..];
  }

  lemma Between(sorted: seq<string>, key: string, i: nat)
    requires Ascending(sorted) && key !in sorted && i < |sorted| && KeyOrder(sorted[i], key) != Less
    ensures forall j :: i <= j < |sorted| ==> KeyOrder(key, sorted[j]) == Less
  {
    forall j | i <= j < |sorted| ensures KeyOrder(key, sorted[j]) == Less {
      KeyOrderIsTotal(sorted[i], key, key);
      KeyOrderIsTotal(key, sorted[i], sorted[j]);
    }
  }

  method SortKeys(keys: set<string>) returns (sorted: seq<string>)
    ensures Ascending(sorted) && Elements(sorted) == keys
  {
    sorted := [];
    var todo := keys;
    while todo != {}
      invariant todo <= keys && Ascending(sorted) && Elements(sorted) == keys - todo
    {
      var k :| k in todo;
      assert k in sorted <==> k in Elements(sorted);
      sorted := InsertKey(sorted, k);
      todo := todo - {k};
    }
  }

  lemma {:induction false} SortingExists(keys: set<string>)
    ensures exists sorted :: Ascending(sorted) && Elements(sorted) == keys
  {
    if keys == {} {
      assert Ascending([]) && Elements([]) == keys;
    } else {
      var k :| k in keys;
      SortingExists(keys - {k});
      var rest :| Ascending(rest) && Elements(rest) == keys - {k};
      assert k in rest <==> k in Elements(rest);
      InsertionExists(rest, k, |rest|);
      var out :| Ascending(out) && Elements(out) == Elements(rest) + {k};
    }
  }

  lemma {:induction false} InsertionExists(sorted: seq<string>, key: string, i: nat)
    requires Ascending(sorted) && key !in sorted && i <= |sorted|
    requires forall j :: i <= j < |sorted| ==> KeyOrder(key, sorted[j]) == Less
    ensures exists out :: Ascending(out) && Elements(out) == Elements(sorted) + {key}
  {
    if i > 0 && KeyOrder(sorted[i - 1], key) != Less {
      Between(sorted, key, i - 1);
      InsertionExists(sorted, key, i - 1);
    } else {
      forall j | 0 <= j < i ensures KeyOrder(sorted[j], key) == Less {
        KeyOrderIsTotal(sorted[j], sorted[i - 1], key);
      }
      Inserted(sorted, key, i);
    }
  }

  lemma Inserted(sorted: seq<string>, key: string, i: nat)
    requires Ascending(sorted) && i <= |sorted|
    requires forall j :: 0 <= j < i ==> KeyOrder(sorted[j], key) == Less
    requires forall j :: i <= j < |sorted| ==> KeyOrder(key, sorted[j]) == Less
    ensures var out := sorted[..i] + [key] + sorted[i..];
      Ascending(out) && Elements(out) == Elements(sorted) + {key}
  {
    assert sorted == sorted[..i] + sorted[i..];
  }

  /** The keys in order. */
  ghost function Sorted(keys: set<string>): (sorted: seq<string>)
    ensures Ascending(sorted) && Elements(sorted) == keys
  {
    SortingExists(keys);
    var sorted :| Ascending(sorted) && Elements(sorted) == keys;
    sorted
  }
}
