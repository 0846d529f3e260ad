/** The covered frontier at the front of a snapshot body: `[u32 n]{[u32 len][name][u64 counter]}*`. */
module FrontierCodec {
  import opened Wrappers
  import opened Bytes
  import Utf8

  type Entry = (string, nat)

  /** What the iteration over the ordered map yields: each replica once. */
  predicate Distinct(entries: seq<Entry>) {
    forall i, j :: 0 <= i < j < |entries| ==> entries[i].0 != entries[j].0
  }

  function ToMap(entries: seq<Entry>): map<string, nat> {
    if entries == [] then map[]
    else ToMap(entries[..|entries| - 1])[entries[|entries| - 1].0 := entries[|entries| - 1].1]
  }

  /** The sizes the fixed-width fields can hold. */
  predicate Fits(entries: seq<Entry>) {
    && |entries| < U32_LIMIT
    && forall i :: 0 <= i < |entries| ==> |Utf8.Encode(entries[i].0)| < U32_LIMIT && entries[i].1 < U64_LIMIT
  }

  function EntryBytes(e: Entry): seq<byte> {
    var name := Utf8.Encode(e.0);
    U32(Len32(|name|)) + name + U64(e.1 % U64_LIMIT)
  }

  function EntriesBytes(entries: seq<Entry>): seq<byte> {
    if entries == [] then [] else EntryBytes(entries[0]) + EntriesBytes(entries[1..])
  }

  function FrontierBytes(entries: seq<Entry>): seq<byte> {
    U32(Len32(|entries|)) + EntriesBytes(entries)
  }

  /** One entry off the front, and what remains. */
  function ReadEntry(b: seq<byte>): (r: Option<(Entry, seq<byte>)>)
    ensures r.Some? ==> |r.value.1| < |b|
  {
    if |b| < 4 then None
    else
      var len := ReadBigEndian(b[..4]);
      if |b| < 4 + len then None
      else match Utf8.Decode(b[4..4 + len])
        case None => None
        case Some(name) =>
          if |b| < 12 + len then None
          else Some(((name, ReadBigEndian(b[4 + len..12 + len])), b[12 + len..]))
  }

  function ReadEntries(b: seq<byte>, count: nat): Option<(seq<Entry>, seq<byte>)>
    decreases count
  {
    if count == 0 then Some(([], b))
    else match ReadEntry(b)
      case None => None
      case Some((e, rest)) =>
        match ReadEntries(rest, count - 1)
        case None => None
        case Some((es, tail)) => Some(([e] + es, tail))
  }

  function ReadFrontier(b: seq<byte>): Option<(seq<Entry>, seq<byte>)> {
    if |b| < 4 then None else ReadEntries(b[4..], ReadBigEndian(b[..4]))
  }

  /** `encode_frontier`, over the map's iteration order. */
  method EncodeFrontier(entries: seq<Entry>) returns (out: seq<byte>)
    ensures out == FrontierBytes(entries)
  {
    out := U32(Len32(|entries|));
    for i := 0 to |entries|
      invariant out + EntriesBytes(entries[i..]) == FrontierBytes(entries)
    {
      var name := Utf8.Encode(entries[i].0);
      assert EntriesBytes(entries[i..]) == EntryBytes(entries[i]) + EntriesBytes(entries[i + 1..]) by {
        assert entries[i..][1..] == entries[i + 1..];
      }
      out := out + U32(Len32(|name|)) + name + U64(entries[i].1 % U64_LIMIT);
    }
    assert EntriesBytes(entries[|entries|..]) == [];
  }

  /** `decode_frontier`: the map the entries fold into, and the engine's bytes behind them. */
  method DecodeFrontier(bytes: seq<byte>) returns (r: Option<(map<string, nat>, seq<byte>)>)
    ensures r.None? <==> ReadFrontier(bytes).None?
    ensures r.Some? ==> r.value == (ToMap(ReadFrontier(bytes).value.0), ReadFrontier(bytes).value.1)
  {
    if |bytes| < 4 {
      return None;
    }
    var count := ReadBigEndian(bytes[..4]);
    var rest := bytes[4..];
    var frontier: map<string, nat> := map[];
    ghost var done: seq<Entry> := [];
    if ReadEntries(rest, count).Some? {
      assert [] + ReadEntries(rest, count).value.0 == ReadEntries(rest, count).value.0;
    }
    for i := 0 to count
      invariant frontier == ToMap(done) && Reading(bytes, done, rest, count - i)
    {
      match ReadEntry(rest) {
        case None => return None;
        case Some((e, tail)) =>
          frontier := frontier[e.0 := e.1];
          ReadingOne(bytes, done, rest, count - i, e, tail);
          done := done + [e];
          rest := tail;
      }
    }
    assert done + [] == done;
    return Some((frontier, rest));
  }

  /** The bytes read as `done` and then whatever `left` entries off `rest` read as. */
  ghost predicate Reading(bytes: seq<byte>, done: seq<Entry>, rest: seq<byte>, left: nat) {
    match ReadEntries(rest, left)
    case None => ReadFrontier(bytes).None?
    case Some((es, tail)) => ReadFrontier(bytes) == Some((done + es, tail))
  }

  lemma ReadingOne(bytes: seq<byte>, done: seq<Entry>, rest: seq<byte>, left: nat, e: Entry, tail: seq<byte>)
    requires Reading(bytes, done, rest, left) && left > 0 && ReadEntry(rest) == Some((e, tail))
    ensures Reading(bytes, done + [e], tail, left - 1)
    ensures ToMap(done + [e]) == ToMap(done)[e.0 := e.1]
  {
    assert (done + [e])[..|done + [e]| - 1] == done;
    if ReadEntries(tail, left - 1).Some? {
      var more := ReadEntries(tail, left - 1).value.0;
      assert done + ([e] + more) == (done + [e]) + more;
    }
  }

  lemma ReadEntryOfBytes(e: Entry, tail: seq<byte>)
    requires |Utf8.Encode(e.0)| < U32_LIMIT && e.1 < U64_LIMIT
    ensures ReadEntry(EntryBytes(e) + tail) == Some((e, tail))
  {
    var name := Utf8.Encode(e.0);
    U32RoundTrip(|name|);
    U64RoundTrip(e.1);
    Utf8.DecodeOfEncode(e.0);
    Pieces(U32(|name|), name, U64(e.1), tail);
  }

  lemma Pieces(a: seq<byte>, b: seq<byte>, c: seq<byte>, d: seq<byte>)
    ensures var s := a + b + c + d;
      s[..|a|] == a && s[|a|..|a| + |b|] == b && s[|a| + |b|..|a| + |b| + |c|] == c && s[|a| + |b| + |c|..] == d
  {
  }

  lemma {:induction false} ReadEntriesOfBytes(entries: seq<Entry>, tail: seq<byte>)
    requires Fits(entries)
    ensures ReadEntries(EntriesBytes(entries) + tail, |entries|) == Some((entries, tail))
  {
    if entries == [] {
      assert EntriesBytes(entries) + tail == tail;
    } else {
      var rest := EntriesBytes(entries[1..]) + tail;
      assert EntriesBytes(entries) + tail == EntryBytes(entries[0]) + rest;
      ReadEntryOfBytes(entries[0], rest);
      ReadEntriesOfBytes(entries[1..], tail);
      assert entries == [entries[0]] + entries[1..];
    }
  }

  /** Decoding an encoded frontier gives back the frontier and exactly the bytes that followed it. */
  lemma DecodeOfEncode(entries: seq<Entry>, tail: seq<byte>)
    requires Fits(entries)
    ensures ReadFrontier(FrontierBytes(entries) + tail) == Some((entries, tail))
  {
    var b := FrontierBytes(entries) + tail;
    U32RoundTrip(|entries|);
    assert b[..4] == U32(|entries|);
    assert b[4..] == EntriesBytes(entries) + tail;
    ReadEntriesOfBytes(entries, tail);
  }

  lemma Cut(b: seq<byte>, i: nat, j: nat, k: nat)
    requires i <= j <= k <= |b|
    ensures b[..i] + b[i..j] + b[j..k] + b[k..] == b
  {
  }

  lemma BytesOfReadEntry(b: seq<byte>)
    requires ReadEntry(b).Some?
    ensures EntryBytes(ReadEntry(b).value.0) + ReadEntry(b).value.1 == b
  {
    var len := ReadBigEndian(b[..4]);
    Utf8.EncodeOfDecode(b[4..4 + len]);
    NumberFields(b[..4], b[4 + len..12 + len]);
    Cut(b, 4, 4 + len, 12 + len);
  }

  lemma NumberFields(len: seq<byte>, counter: seq<byte>)
    requires |len| == 4 && |counter| == 8
    ensures U32(Len32(ReadBigEndian(len))) == len && U64(ReadBigEndian(counter) % U64_LIMIT) == counter
  {
    LengthField(len);
    CounterField(counter);
  }

  lemma LengthField(b: seq<byte>)
    requires |b| == 4
    ensures U32(Len32(ReadBigEndian(b))) == b
  {
    CapacityValues();
    WriteOfRead(b);
  }

  lemma CounterField(b: seq<byte>)
    requires |b| == 8
    ensures U64(ReadBigEndian(b) % U64_LIMIT) == b
  {
    CapacityValues();
    WriteOfRead(b);
    assert ReadBigEndian(b) % U64_LIMIT == ReadBigEndian(b);
  }

  lemma {:induction false} BytesOfReadEntries(b: seq<byte>, count: nat)
    requires ReadEntries(b, count).Some?
    ensures var (es, rest) := ReadEntries(b, count).value;
            |es| == count && EntriesBytes(es) + rest == b
    decreases count
  {
    if count > 0 {
      BytesOfReadEntry(b);
      var (e, rest) := ReadEntry(b).value;
      BytesOfReadEntries(rest, count - 1);
      var (es, tail) := ReadEntries(rest, count - 1).value;
      assert ([e] + es)[1..] == es;
    }
  }

  /** Whatever decodes was encoded: the accepted bytes are the encoding of what was read, then the tail. */
  lemma EncodeOfDecode(b: seq<byte>)
    requires ReadFrontier(b).Some?
    ensures var (entries, tail) := ReadFrontier(b).value; FrontierBytes(entries) + tail == b
  {
    CapacityValues();
    WriteOfRead(b[..4]);
    BytesOfReadEntries(b[4..], ReadBigEndian(b[..4]));
    assert b == b[..4] + b[4..];
  }

  /** The map rebuilt from distinct entries holds exactly those entries. */
  lemma {:induction false} ToMapOfDistinct(entries: seq<Entry>)
    requires Distinct(entries)
    ensures forall r :: r in ToMap(entries) <==> exists i :: 0 <= i < |entries| && entries[i].0 == r
    ensures forall i :: 0 <= i < |entries| ==> entries[i].0 in ToMap(entries) && ToMap(entries)[entries[i].0] == entries[i].1
  {
    if entries != [] {
      var front := entries[..|entries| - 1];
      ToMapOfDistinct(front);
      forall r | r in ToMap(entries)
        ensures exists i :: 0 <= i < |entries| && entries[i].0 == r
      {
        if r != entries[|entries| - 1].0 {
          assert r in ToMap(front);
          var i :| 0 <= i < |front| && front[i].0 == r;
          assert entries[i].0 == r;
        }
      }
    }
  }
}
