/** The blob keys of one document: log objects, head pointers, the snapshot pointer. */
module Keys {
  import opened Wrappers
  import opened Decimal

  function LogPrefix(doc: string): string { doc + "/log/" }

  function HeadsPrefix(doc: string): string { doc + "/heads/" }

  function LogKey(doc: string, replica: string, counter: nat): string {
    LogPrefix(doc) + replica + "/" + Print(counter)
  }

  function HeadKey(doc: string, replica: string): string {
    HeadsPrefix(doc) + replica
  }

  function SnapshotKey(doc: string): string { doc + "/snapshot" }

  function StripPrefix(prefix: string, s: string): (r: Option<string>)
    ensures r.Some? ==> s == prefix + r.value
  {
    if prefix <= s then Some(s[|prefix|..]) else None
  }

  /** Rust's `rsplit_once`: cut at the last slash. */
  function RSplitSlash(s: string): (r: Option<(string, string)>)
    ensures r.Some? ==> s == r.value.0 + "/" + r.value.1 && '/' !in r.value.1
    ensures r.None? ==> '/' !in s
  {
    if s == [] then None
    else if s[|s| - 1] == '/' then Some((s[..|s| - 1], ""))
    else match RSplitSlash(s[..|s| - 1])
      case None => None
      case Some((left, right)) => Some((left, right + [s[|s| - 1]]))
  }

  predicate ReplicaName(r: string) {
    r != "" && '/' !in r
  }

  function ParseLogKey(doc: string, key: string): Option<(string, nat)> {
    match StripPrefix(LogPrefix(doc), key)
    case None => None
    case Some(rest) =>
      match RSplitSlash(rest)
      case None => None
      case Some((replica, counter)) =>
        if !ReplicaName(replica) then None
        else match ParseU64(counter)
          case None => None
          case Some(n) => Some((replica, n))
  }

  function ParseHeadKey(doc: string, key: string): Option<string> {
    match StripPrefix(HeadsPrefix(doc), key)
    case None => None
    case Some(replica) => if ReplicaName(replica) then Some(replica) else None
  }

  lemma {:induction false} RSplitOfJoin(left: string, right: string)
    requires '/' !in right
    ensures RSplitSlash(left + "/" + right) == Some((left, right))
  {
    var s := left + "/" + right;
    if right == "" {
      assert s[..|s| - 1] == left;
    } else {
      var front := right[..|right| - 1];
      RSplitOfJoin(left, front);
      assert s[..|s| - 1] == left + "/" + front;
      assert right == front + [right[|right| - 1]];
    }
  }

  lemma NoSlashInPrint(n: nat)
    ensures '/' !in Print(n)
  {
    assert forall i :: 0 <= i < |Print(n)| ==> IsDigit(Print(n)[i]);
  }

  lemma LogKeyTail(doc: string, replica: string, counter: nat)
    ensures StripPrefix(LogPrefix(doc), LogKey(doc, replica, counter)) == Some(replica + "/" + Print(counter))
  {
    var rest := replica + "/" + Print(counter);
    assert LogKey(doc, replica, counter) == LogPrefix(doc) + rest;
  }

  /** Reading a written log key back gives the dot exactly when the name is legal and the counter fits. */
  lemma LogKeyRoundTrip(doc: string, replica: string, counter: nat)
    ensures ParseLogKey(doc, LogKey(doc, replica, counter)) == Some((replica, counter))
        <==> ReplicaName(replica) && counter <= U64_MAX
  {
    LogKeyTail(doc, replica, counter);
    NoSlashInPrint(counter);
    RSplitOfJoin(replica, Print(counter));
    ParseOfPrint(counter);
  }

  predicate Canonical(text: string) {
    |text| > 0 && text[0] != '+' && (|text| > 1 ==> text[0] != '0')
  }

  /** The counter text of a key that parses. */
  function CounterText(doc: string, key: string): string
    requires ParseLogKey(doc, key).Some?
  {
    RSplitSlash(StripPrefix(LogPrefix(doc), key).value).value.1
  }

  lemma CanonicalText(text: string)
    requires ParseU64(text).Some?
    ensures text == Print(ParseU64(text).value) <==> Canonical(text)
  {
    if Canonical(text) {
      PrintOfValue(text);
    } else if text[0] == '+' {
      assert IsDigit(Print(ParseU64(text).value)[0]);
    }
  }

  /** A key that parses is the one `LogKey` writes exactly when its counter has neither sign nor leading zero. */
  lemma ParsedLogKey(doc: string, key: string)
    requires ParseLogKey(doc, key).Some?
    ensures var (replica, counter) := ParseLogKey(doc, key).value;
            ReplicaName(replica) && counter <= U64_MAX &&
            (key == LogKey(doc, replica, counter) <==> Canonical(CounterText(doc, key)))
  {
    var (replica, counter) := ParseLogKey(doc, key).value;
    var text := CounterText(doc, key);
    var rest := StripPrefix(LogPrefix(doc), key).value;
    assert rest == replica + "/" + text;
    CanonicalText(text);
    LogKeyTail(doc, replica, counter);
    if key == LogKey(doc, replica, counter) {
      NoSlashInPrint(counter);
      RSplitOfJoin(replica, Print(counter));
    }
  }

  lemma HeadKeyRoundTrip(doc: string, replica: string)
    ensures ParseHeadKey(doc, HeadKey(doc, replica)) == Some(replica) <==> ReplicaName(replica)
  {
    assert HeadKey(doc, replica)[|HeadsPrefix(doc)|..] == replica;
  }

  /** The three families of keys never meet, so one map per family loses nothing. */
  lemma FamiliesDisjoint(doc: string, r: string, n: nat, q: string)
    ensures LogKey(doc, r, n) != HeadKey(doc, q)
    ensures LogKey(doc, r, n) != SnapshotKey(doc)
    ensures HeadKey(doc, q) != SnapshotKey(doc)
  {
    var at := |doc| + 1;
    assert LogKey(doc, r, n)[at] == 'l';
    assert HeadKey(doc, q)[at] == 'h';
    assert SnapshotKey(doc)[at] == 's';
  }

  lemma LogKeyInjective(doc: string, r: string, n: nat, q: string, m: nat)
    requires ReplicaName(r) && ReplicaName(q)
    requires LogKey(doc, r, n) == LogKey(doc, q, m)
    ensures r == q && n == m
  {
    NoSlashInPrint(n);
    NoSlashInPrint(m);
    RSplitOfJoin(r, Print(n));
    RSplitOfJoin(q, Print(m));
    LogKeyTail(doc, r, n);
    LogKeyTail(doc, q, m);
    PrintInjective(n, m);
  }
}
