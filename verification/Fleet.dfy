/**
  Many clients, one store and a sweeper. Every client call of `SyncModel` is one atomic step; the sweeper may at
  any time reclaim any log objects strictly below what the current snapshot claims to cover. In every run, every
  delta ever appended is still in the log or inside the current snapshot's state, unless a classifier dropped it.
*/
module Fleet {
  import opened Wrappers
  import opened SyncModel
  import opened Buckets
  import opened Adoption
  import Decimal

  /**
    `hist` is every log object ever written, `excused` every dot any classifier ever dropped, and `sealed` the
    snapshots that clients have sealed and may yet deliver.
  */
  datatype World = World(s: Blobs, clients: map<Replica, Client>, hist: map<Dot, Envelope>, excused: set<Dot>,
                         sealed: set<Envelope>)

  const GENESIS: World := World(Blobs(map[], map[], None, {}, {}), map[], map[], {}, {})

  datatype Step =
    | Open(replica: Replica)
    | Close(replica: Replica)
    | ApplyEdit(replica: Replica, h: Host, edit: Option<Delta>)
    | PushCover(replica: Replica, h: Host, body: Plaintext)
    | PullPlain(replica: Replica, h: Host, order: seq<Replica>)
    | PullChecked(replica: Replica, h: Host, g: Classifier, drain: seq<Dot>, order: seq<Replica>)
    | Retry(replica: Replica, h: Host, g: Classifier, stalls: seq<Dot>)
    | AdoptSnapshot(replica: Replica, h: Host, trusts: Envelope -> bool, order: seq<Replica>, rule: PurgeRule)
    | CompactNow(replica: Replica, h: Host)
    | CompactIfDue(replica: Replica, h: Host, due: (nat, bool) -> bool)
    | Seal(replica: Replica)
    | Deliver(env: Envelope)
    | ReadmitDot(replica: Replica, h: Host, admits: Envelope -> bool, d: Dot)
    | ForgetDot(replica: Replica, d: Dot)
    | Sweep(dots: set<Dot>)
    | Plant(d: Dot, env: Envelope)
    | SetHead(replica: Replica, text: string)
    | Outage(down: set<Key>)

  /** What the current snapshot claims; nothing if there is none. */
  function CurrentCoverage(s: Blobs): Frontier {
    if s.snapshot.Some? && s.snapshot.value.Sealed? && s.snapshot.value.body.Fold? then s.snapshot.value.body.covered
    else map[]
  }

  /** A snapshot this client refused is overwritten only if that regresses no coverage: what the server enforces. */
  predicate MayOverwrite(c: Client, s: Blobs) {
    s.snapshot.Some? && c.rejectedEtag == Some(Etag(s.snapshot.value)) ==> !Exceeds(CurrentCoverage(s), Subsumed(c))
  }

  /** When a step can happen. A plain pull may fail half way, a verified one where that is harmless; a replica id is
      fresh per open. */
  ghost predicate Enabled(w: World, step: Step) {
    match step
    case Open(r) => r !in w.clients && forall d :: d in w.hist ==> d.replica != r
    case Close(r) => r in w.clients
    case ApplyEdit(r, h, edit) => r in w.clients
    case PushCover(r, h, body) => r in w.clients
    case PullPlain(r, h, order) => r in w.clients
    case PullChecked(r, h, g, drain, order) =>
      r in w.clients && DrainOrder(w.clients[r], drain) && Harmless(w.clients[r], w.s, h, drain, order)
    case Retry(r, h, g, stalls) => r in w.clients && RetryOrder(w.clients[r], stalls)
    case AdoptSnapshot(r, h, trusts, order, rule) =>
      r in w.clients && AdoptOrder(w.clients[r], w.s, h, trusts, order) &&
      (rule == Coded && OfferOf(w.clients[r], w.s, h, trusts).Offered? ==>
         PurgeSafe(w.clients[r], OfferOf(w.clients[r], w.s, h, trusts).covered))
    case CompactNow(r, h) => r in w.clients && MayOverwrite(w.clients[r], w.s)
    case CompactIfDue(r, h, due) => r in w.clients && MayOverwrite(w.clients[r], w.s)
    case Seal(r) => r in w.clients
    case Deliver(env) => env in w.sealed && env.Sealed? && env.body.Fold? && !Exceeds(CurrentCoverage(w.s), env.body.covered)
    case ReadmitDot(r, h, admits, d) => r in w.clients
    case ForgetDot(r, d) => r in w.clients
    case Sweep(dots) => dots <= w.s.log.Keys && forall d :: d in dots ==> Below(CurrentCoverage(w.s), d)
    case Plant(d, env) => d !in w.hist && d.replica !in w.clients
    case SetHead(r, text) => true
    case Outage(down) => true
  }

  /** Steps that leave the fields of every open client alone. */
  predicate Quiet(step: Step) {
    step.Open? || step.Close? || step.Seal? || step.Deliver? || step.Sweep? || step.Plant? || step.SetHead? ||
    step.Outage?
  }

  function Put(w: World, c: Client): World {
    w.(clients := w.clients[c.replica := c], excused := w.excused + c.suppressed)
  }

  /** An append adds its object to the history. */
  function PutWritten(w: World, c: Client, written: Written): World {
    var dot := Dot(c.replica, c.next);
    var hist := if dot in written.s.log && dot !in w.s.log then w.hist[dot := written.s.log[dot]] else w.hist;
    Put(w.(s := written.s, hist := hist), written.c)
  }

  function Next(w: World, step: Step): World
    requires Enabled(w, step)
  {
    match step
    case Open(r) => w.(clients := w.clients[r := Fresh(r)])
    case Close(r) => w.(clients := w.clients - {r})
    case ApplyEdit(r, h, edit) => PutWritten(w, w.clients[r], Apply(w.clients[r], w.s, h, edit))
    case PushCover(r, h, body) => PutWritten(w, w.clients[r], Append(w.clients[r], w.s, h, KCover, body))
    case PullPlain(r, h, order) => Put(w, Pull(w.clients[r], w.s, h, order).c)
    case PullChecked(r, h, g, drain, order) => Put(w, PullVerified(w.clients[r], w.s, h, g, drain, order).c)
    case Retry(r, h, g, stalls) => Put(w, RetryStalled(w.clients[r], w.s, h, g, stalls).c)
    case AdoptSnapshot(r, h, trusts, order, rule) => Put(w, Adopt(w.clients[r], w.s, h, trusts, order, rule).c)
    case CompactNow(r, h) =>
      var written := Compact(w.clients[r], w.s, h);
      Put(w.(s := written.s), written.c)
    case CompactIfDue(r, h, due) =>
      var compaction := MaybeCompact(w.clients[r], w.s, h, due);
      Put(w.(s := compaction.s), compaction.c)
    case Seal(r) => w.(sealed := w.sealed + {SnapshotOf(w.clients[r])})
    case Deliver(env) => w.(s := w.s.(snapshot := Some(env)))
    case ReadmitDot(r, h, admits, d) => Put(w, Readmit(w.clients[r], w.s, h, admits, d).c)
    case ForgetDot(r, d) => Put(w, Forget(w.clients[r], d))
    case Sweep(dots) => w.(s := w.s.(log := w.s.log - dots, gone := w.s.gone + dots))
    case Plant(d, env) => w.(s := w.s.(log := w.s.log[d := env]), hist := w.hist[d := env])
    case SetHead(r, text) => w.(s := w.s.(heads := w.s.heads[r := text]))
    case Outage(down) => w.(s := w.s.(down := down))
  }

  // ----- the invariant of every reachable world -----

  /** `d` was written, and whatever delta it carries is in `state` or was dropped. */
  predicate Resolved(hist: map<Dot, Envelope>, excused: set<Dot>, state: set<Delta>, d: Dot) {
    d in hist && (IsChange(hist[d]) ==> hist[d].body.delta in state || d in excused)
  }

  ghost predicate ClientSound(hist: map<Dot, Envelope>, excused: set<Dot>, c: Client) {
    && Booked(c) && OwnSettled(c)
    && (forall d :: Below(c.pull, d) ==> d in hist)
    && (forall k: nat :: Dot(c.replica, k) in hist <==> k < c.next)
    && (forall d :: d in c.folded ==> d in hist && IsChange(hist[d]) && hist[d].body.delta in c.engine)
    && (forall d :: d in c.covers ==> d in hist && !IsChange(hist[d]))
    && c.suppressed <= excused
    && (forall d :: d in c.adopted ==> Resolved(hist, excused, c.engine, d))
  }

  /** A snapshot that contains what it claims. */
  ghost predicate Honest(hist: map<Dot, Envelope>, excused: set<Dot>, env: Envelope) {
    && env.Sealed? && env.kind == KSnapshot && env.body.Fold?
    && forall d :: Below(env.body.covered, d) ==> Resolved(hist, excused, env.body.state, d)
  }

  ghost predicate Sound(w: World) {
    && (forall d :: d in w.s.log ==> d in w.hist && w.hist[d] == w.s.log[d])
    && (forall d :: d in w.hist ==> d in w.s.log || Below(CurrentCoverage(w.s), d))
    && (forall r :: r in w.clients ==> w.clients[r].replica == r && ClientSound(w.hist, w.excused, w.clients[r]))
    && (w.s.snapshot.Some? ==> Honest(w.hist, w.excused, w.s.snapshot.value))
    && (forall env :: env in w.sealed ==> Honest(w.hist, w.excused, env))
  }

  /** Nothing already sound is upset by a longer history of other replicas, or by more dots being excused. */
  lemma SoundGrows(hist: map<Dot, Envelope>, hist': map<Dot, Envelope>, excused: set<Dot>, excused': set<Dot>, c: Client)
    requires ClientSound(hist, excused, c) && excused <= excused'
    requires forall d :: d in hist ==> d in hist' && hist'[d] == hist[d]
    requires forall d :: d in hist' && d !in hist ==> d.replica != c.replica
    ensures ClientSound(hist', excused', c)
  {
  }

  lemma HonestGrows(hist: map<Dot, Envelope>, hist': map<Dot, Envelope>, excused: set<Dot>, excused': set<Dot>, env: Envelope)
    requires Honest(hist, excused, env) && excused <= excused'
    requires forall d :: d in hist ==> d in hist' && hist'[d] == hist[d]
    ensures Honest(hist', excused', env)
  {
  }

  /** A client that publishes tells the truth. */
  lemma SnapshotsAreHonest(hist: map<Dot, Envelope>, excused: set<Dot>, c: Client)
    requires ClientSound(hist, excused, c)
    ensures Honest(hist, excused, SnapshotOf(c))
  {
    SubsumedIsSettled(c);
    forall d | Below(Subsumed(c), d)
      ensures Resolved(hist, excused, c.engine, d)
    {
      assert Settled(c, d);
    }
  }

  // ----- one step keeps it -----

  lemma PutKeeps(w: World, c: Client)
    requires Sound(w) && c.replica in w.clients && ClientSound(w.hist, w.excused + c.suppressed, c)
    ensures Sound(Put(w, c))
  {
    forall r | r in w.clients && r != c.replica
      ensures ClientSound(w.hist, w.excused + c.suppressed, w.clients[r])
    {
      SoundGrows(w.hist, w.hist, w.excused, w.excused + c.suppressed, w.clients[r]);
    }
  }

  /** A call that only reads the store. */
  lemma ReadsKeep(w: World, c: Client, c': Client)
    requires Sound(w) && c.replica in w.clients && w.clients[c.replica] == c
    requires Reads(c, c', w.s) && Booked(c')
    ensures Sound(Put(w, c'))
  {
    assert ClientSound(w.hist, w.excused, c);
    forall d | d in c'.adopted
      ensures Resolved(w.hist, w.excused + c'.suppressed, c'.engine, d)
    {
      assert Resolved(w.hist, w.excused, c.engine, d);
    }
    assert ClientSound(w.hist, w.excused + c'.suppressed, c');
    PutKeeps(w, c');
  }

  /** Adopting keeps a client sound exactly when each dot the snapshot claims is in the history, and its delta is in
      the state or already with the client: the purge of held dots rests on the snapshot being honest. */
  lemma AdoptionNeedsHonesty(hist: map<Dot, Envelope>, excused: set<Dot>, c: Client, s: Blobs, h: Host,
                             trusts: Envelope -> bool, order: seq<Replica>, rule: PurgeRule)
    requires ClientSound(hist, excused, c) && AdoptOrder(c, s, h, trusts, order) && OfferOf(c, s, h, trusts).Offered?
    requires rule == Coded ==> PurgeSafe(c, OfferOf(c, s, h, trusts).covered)
    ensures var offer := OfferOf(c, s, h, trusts);
            ClientSound(hist, excused, Adopt(c, s, h, trusts, order, rule).c) <==>
              forall d :: Below(offer.covered, d) ==> Resolved(hist, excused, c.engine + offer.state, d)
  {
    var offer := OfferOf(c, s, h, trusts);
    var after := Adopt(c, s, h, trusts, order, rule).c;
    AdoptKeeps(c, s, h, trusts, order, rule);
    assert after.engine == c.engine + offer.state && after.adopted == c.adopted + Claimed(offer.covered);
    if forall d :: Below(offer.covered, d) ==> Resolved(hist, excused, after.engine, d) {
      forall d | d in after.adopted
        ensures Resolved(hist, excused, after.engine, d)
      {
        assert d in c.adopted ==> Resolved(hist, excused, c.engine, d);
      }
    } else {
      var d :| Below(offer.covered, d) && !Resolved(hist, excused, after.engine, d);
      assert d in after.adopted;
    }
  }

  lemma AdoptKeepsSound(w: World, r: Replica, h: Host, trusts: Envelope -> bool, order: seq<Replica>, rule: PurgeRule)
    requires Sound(w) && Enabled(w, AdoptSnapshot(r, h, trusts, order, rule))
    ensures Sound(Next(w, AdoptSnapshot(r, h, trusts, order, rule)))
  {
    AdopterStaysSound(w, r, h, trusts, order, rule);
    PutKeeps(w, Adopt(w.clients[r], w.s, h, trusts, order, rule).c);
  }

  lemma AdopterStaysSound(w: World, r: Replica, h: Host, trusts: Envelope -> bool, order: seq<Replica>, rule: PurgeRule)
    requires Sound(w) && Enabled(w, AdoptSnapshot(r, h, trusts, order, rule))
    ensures var after := Adopt(w.clients[r], w.s, h, trusts, order, rule).c;
            after.replica == r && ClientSound(w.hist, w.excused + after.suppressed, after)
  {
    var c := w.clients[r];
    var offer := OfferOf(c, w.s, h, trusts);
    AdoptKeeps(c, w.s, h, trusts, order, rule);
    assert ClientSound(w.hist, w.excused, c);
    if offer.Offered? {
      assert Honest(w.hist, w.excused, w.s.snapshot.value);
      AdoptionNeedsHonesty(w.hist, w.excused, c, w.s, h, trusts, order, rule);
      HonestyBrings(w, c.engine, offer.covered, offer.state);
    } else {
      RefusalIsFree(w.hist, w.excused, c, Adopt(c, w.s, h, trusts, order, rule).c);
    }
  }

  lemma RefusalIsFree(hist: map<Dot, Envelope>, excused: set<Dot>, c: Client, c': Client)
    requires ClientSound(hist, excused, c) && c' == c.(rejections := c'.rejections, rejectedEtag := c'.rejectedEtag)
    ensures ClientSound(hist, excused, c')
  {
    assert Blockers(c') == Blockers(c);
    assert forall d :: Settled(c', d) == Settled(c, d);
  }

  /** What an honest snapshot claims is in the state it brings, so also beside what was there. */
  lemma HonestyBrings(w: World, engine: set<Delta>, covered: Frontier, state: set<Delta>)
    requires forall d :: Below(covered, d) ==> Resolved(w.hist, w.excused, state, d)
    ensures forall d :: Below(covered, d) ==> Resolved(w.hist, w.excused, engine + state, d)
  {
  }

  /** The author of an append stays sound. */
  lemma AuthorStaysSound(w: World, c0: Client, c: Client, h: Host, kind: Kind, body: Plaintext)
    requires ClientSound(w.hist, w.excused, c0) && c == c0.(engine := c.engine) && c0.engine <= c.engine
    requires kind == KCover || (kind == KDelta && body.Change? && body.delta in c.engine)
    requires Dot(c.replica, c.next) !in w.s.log
    ensures var written := Append(c, w.s, h, kind, body);
            ClientSound(PutWritten(w, c0, written).hist, w.excused, written.c) && written.c.suppressed == c.suppressed
  {
    var dot := Dot(c.replica, c.next);
    var written := Append(c, w.s, h, kind, body);
    var hist := PutWritten(w, c0, written).hist;
    assert dot !in w.hist;
    assert Booked(c) && OwnSettled(c);
    AppendKeeps(c, w.s, h, kind, body);
    StillResolved(w, w.hist, c0, c);
    if written.c.next == c.next {
      assert written.c == c.(prev := None) && hist == w.hist;
    } else {
      var env := Sealed(kind, c.next, c.prev, body);
      assert hist == w.hist[dot := env];
      StillResolved(w, hist, c0, c);
      AuthorGoesOn(w, c0, c, written.c, env, kind);
    }
  }

  /** The book after an entry is written: one more own dot, folded or a cover. */
  lemma AuthorGoesOn(w: World, c0: Client, c: Client, c': Client, env: Envelope, kind: Kind)
    requires ClientSound(w.hist, w.excused, c0) && c == c0.(engine := c.engine) && c0.engine <= c.engine
    requires if kind == KCover then !IsChange(env) else IsChange(env) && env.body.delta in c.engine
    requires Booked(c') && OwnSettled(c')
    requires var dot, next := Dot(c.replica, c.next), Recorded(c, env, kind); c' == next || c' == Announced(next)
    requires var hist := w.hist[Dot(c.replica, c.next) := env];
             forall d :: d in c.adopted ==> Resolved(hist, w.excused, c.engine, d)
    ensures ClientSound(w.hist[Dot(c.replica, c.next) := env], w.excused, c')
  {
  }

  lemma StillResolved(w: World, hist: map<Dot, Envelope>, c0: Client, c: Client)
    requires ClientSound(w.hist, w.excused, c0) && c.adopted == c0.adopted && c0.engine <= c.engine
    requires forall d :: d in w.hist ==> d in hist && hist[d] == w.hist[d]
    ensures forall d :: d in c.adopted ==> Resolved(hist, w.excused, c.engine, d)
  {
    forall d | d in c.adopted
      ensures Resolved(hist, w.excused, c.engine, d)
    {
      assert Resolved(w.hist, w.excused, c0.engine, d);
    }
  }

  /** An append to a free slot writes its dot or nothing. */
  lemma AppendWrites(c: Client, s: Blobs, h: Host, kind: Kind, body: Plaintext)
    requires Dot(c.replica, c.next) !in s.log
    ensures var w := Append(c, s, h, kind, body);
            var dot, env := Dot(c.replica, c.next), Sealed(kind, c.next, c.prev, body);
            w.s.snapshot == s.snapshot && w.c.replica == c.replica && w.c.suppressed == c.suppressed &&
            (w.s.log == s.log || w.s.log == s.log[dot := env])
  {
  }

  lemma AppendKeepsSound(w: World, r: Replica, h: Host, kind: Kind, body: Plaintext, engine: set<Delta>)
    requires Sound(w) && r in w.clients && w.clients[r].engine <= engine
    requires kind == KCover || (kind == KDelta && body.Change? && body.delta in engine)
    ensures var c := w.clients[r].(engine := engine);
            Sound(PutWritten(w, w.clients[r], Append(c, w.s, h, kind, body)))
  {
    var c0 := w.clients[r];
    var c := c0.(engine := engine);
    var dot := Dot(r, c.next);
    assert ClientSound(w.hist, w.excused, c0);
    assert dot !in w.hist && dot !in w.s.log;
    AuthorStaysSound(w, c0, c, h, kind, body);
    AppendWrites(c, w.s, h, kind, body);
    WrittenKeeps(w, c0, Append(c, w.s, h, kind, body), Sealed(kind, c.next, c.prev, body));
  }

  lemma WrittenKeeps(w: World, c0: Client, written: Written, env: Envelope)
    requires Sound(w) && c0.replica in w.clients && w.clients[c0.replica] == c0
    requires var dot := Dot(c0.replica, c0.next);
             dot !in w.hist && dot !in w.s.log && (written.s.log == w.s.log || written.s.log == w.s.log[dot := env])
    requires written.s.snapshot == w.s.snapshot
    requires written.c.replica == c0.replica && written.c.suppressed <= w.excused
    requires ClientSound(PutWritten(w, c0, written).hist, w.excused, written.c)
    ensures Sound(PutWritten(w, c0, written))
  {
    var w' := PutWritten(w, c0, written);
    assert w'.excused == w.excused;
    forall q | q in w.clients && q != c0.replica
      ensures ClientSound(w'.hist, w'.excused, w.clients[q])
    {
      SoundGrows(w.hist, w'.hist, w.excused, w'.excused, w.clients[q]);
    }
    OthersGrow(w, w');
    assert CurrentCoverage(w'.s) == CurrentCoverage(w.s);
  }

  /** The snapshots of a world stay honest when the history and the excuses grow. */
  lemma OthersGrow(w: World, w': World)
    requires Sound(w) && w.excused <= w'.excused
    requires forall d :: d in w.hist ==> d in w'.hist && w'.hist[d] == w.hist[d]
    ensures forall env :: env in w.sealed ==> Honest(w'.hist, w'.excused, env)
    ensures w.s.snapshot.Some? ==> Honest(w'.hist, w'.excused, w.s.snapshot.value)
  {
    forall env | env in w.sealed
      ensures Honest(w'.hist, w'.excused, env)
    {
      HonestGrows(w.hist, w'.hist, w.excused, w'.excused, env);
    }
    if w.s.snapshot.Some? {
      HonestGrows(w.hist, w'.hist, w.excused, w'.excused, w.s.snapshot.value);
    }
  }

  /** An honest snapshot that regresses no coverage may replace the current one. */
  lemma ReplaceKeeps(w: World, env: Envelope)
    requires Sound(w) && Honest(w.hist, w.excused, env) && !Exceeds(CurrentCoverage(w.s), env.body.covered)
    ensures Sound(w.(s := w.s.(snapshot := Some(env))))
  {
    forall d | Below(CurrentCoverage(w.s), d)
      ensures Below(env.body.covered, d)
    {
      assert d.replica in CurrentCoverage(w.s);
    }
  }

  lemma LogLenIsFree(hist: map<Dot, Envelope>, excused: set<Dot>, c: Client, n: nat)
    requires ClientSound(hist, excused, c)
    ensures ClientSound(hist, excused, c.(logLen := n))
  {
    var c' := c.(logLen := n);
    assert Blockers(c') == Blockers(c);
    assert forall d :: Settled(c', d) == Settled(c, d);
  }

  /** The two outcomes of a compaction: nothing written, or this client's snapshot. */
  lemma CompactWrites(c: Client, s: Blobs, h: Host)
    requires MayOverwrite(c, s)
    requires s.snapshot.Some? ==> s.snapshot.value.Sealed? && s.snapshot.value.body.Fold?
    ensures var w := Compact(c, s, h);
            w.c == c.(logLen := w.c.logLen) &&
            (w.s == s || (w.s == s.(snapshot := Some(SnapshotOf(c))) && !Exceeds(CurrentCoverage(s), Subsumed(c))))
  {
  }

  lemma CompactKeeps(w: World, r: Replica, s': Blobs, c': Client)
    requires Sound(w) && r in w.clients && c' == w.clients[r].(logLen := c'.logLen)
    requires s' == w.s ||
             (s' == w.s.(snapshot := Some(SnapshotOf(w.clients[r]))) && !Exceeds(CurrentCoverage(w.s), Subsumed(w.clients[r])))
    ensures Sound(Put(w.(s := s'), c'))
  {
    var c := w.clients[r];
    assert ClientSound(w.hist, w.excused, c);
    SnapshotsAreHonest(w.hist, w.excused, c);
    if s' != w.s {
      ReplaceKeeps(w, SnapshotOf(c));
    }
    LogLenIsFree(w.hist, w.excused, c, c'.logLen);
    assert w.excused + c'.suppressed == w.excused;
    PutKeeps(w.(s := s'), c');
  }

  lemma EditKeeps(w: World, r: Replica, h: Host, edit: Option<Delta>)
    requires Sound(w) && Enabled(w, ApplyEdit(r, h, edit))
    ensures Sound(Next(w, ApplyEdit(r, h, edit)))
  {
    if edit.Some? {
      AppendKeepsSound(w, r, h, KDelta, Change(edit.value), w.clients[r].engine + {edit.value});
    } else {
      assert ClientSound(w.hist, w.excused, w.clients[r]);
      assert w.excused + w.clients[r].suppressed == w.excused;
      PutKeeps(w, w.clients[r]);
    }
  }

  lemma SweepKeeps(w: World, dots: set<Dot>)
    requires Sound(w) && Enabled(w, Sweep(dots))
    ensures Sound(Next(w, Sweep(dots)))
  {
  }

  lemma OpenKeeps(w: World, r: Replica)
    requires Sound(w) && Enabled(w, Open(r))
    ensures Sound(Next(w, Open(r)))
  {
    assert ClientSound(w.hist, w.excused, Fresh(r));
  }

  lemma PlantKeeps(w: World, d: Dot, env: Envelope)
    requires Sound(w) && Enabled(w, Plant(d, env))
    ensures Sound(Next(w, Plant(d, env)))
  {
    var w' := Next(w, Plant(d, env));
    forall q | q in w.clients
      ensures ClientSound(w'.hist, w'.excused, w.clients[q])
    {
      SoundGrows(w.hist, w'.hist, w.excused, w'.excused, w.clients[q]);
    }
    OthersGrow(w, w');
  }

  /** The calls of one client that only read the store. */
  predicate OnlyReads(step: Step) {
    step.PullPlain? || step.PullChecked? || step.Retry? || step.ReadmitDot? || step.ForgetDot?
  }

  lemma ReaderAfter(w: World, step: Step) returns (c': Client)
    requires Enabled(w, step) && OnlyReads(step) && Booked(w.clients[step.replica])
    ensures Next(w, step) == Put(w, c') && Reads(w.clients[step.replica], c', w.s) && Booked(c')
  {
    var c := w.clients[step.replica];
    match step
    case PullPlain(r, h, order) =>
      PullKeeps(c, w.s, h, order);
      c' := Pull(c, w.s, h, order).c;
    case PullChecked(r, h, g, drain, order) =>
      PullVerifiedKeeps(c, w.s, h, g, drain, order);
      FailedPullVerified(c, w.s, h, g, drain, order);
      c' := PullVerified(c, w.s, h, g, drain, order).c;
    case Retry(r, h, g, stalls) =>
      RetryStalledKeeps(c, w.s, h, g, stalls);
      c' := RetryStalled(c, w.s, h, g, stalls).c;
    case ReadmitDot(r, h, admits, d) =>
      ReadmitKeeps(c, w.s, h, admits, d);
      c' := Readmit(c, w.s, h, admits, d).c;
    case ForgetDot(r, d) =>
      ReadmitKeeps(c, w.s, ANYONE, env => false, d);
      c' := Forget(c, d);
  }

  lemma ReadStepKeeps(w: World, step: Step)
    requires Sound(w) && Enabled(w, step) && OnlyReads(step)
    ensures Sound(Next(w, step))
  {
    assert ClientSound(w.hist, w.excused, w.clients[step.replica]);
    var c' := ReaderAfter(w, step);
    ReadsKeep(w, w.clients[step.replica], c');
  }

  // ----- the guards leave out nothing that would be sound -----

  /** A verified pull leaves a sound world sound exactly when it is one of the harmless ones. */
  lemma OnlyHarmlessPulls(w: World, r: Replica, h: Host, g: Classifier, drain: seq<Dot>, order: seq<Replica>)
    requires Sound(w) && r in w.clients && DrainOrder(w.clients[r], drain)
    ensures Sound(Put(w, PullVerified(w.clients[r], w.s, h, g, drain, order).c)) <==>
            Harmless(w.clients[r], w.s, h, drain, order)
  {
    var c, after := w.clients[r], PullVerified(w.clients[r], w.s, h, g, drain, order).c;
    assert ClientSound(w.hist, w.excused, c);
    FailedPullVerified(c, w.s, h, g, drain, order);
    PullVerifiedKeeps(c, w.s, h, g, drain, order);
    if Harmless(c, w.s, h, drain, order) {
      ReadStepKeeps(w, PullChecked(r, h, g, drain, order));
    } else {
      assert Put(w, after).clients[r] == after;
      assert !ClientSound(Put(w, after).hist, Put(w, after).excused, after);
    }
  }

  lemma CompactStepKeeps(w: World, step: Step)
    requires Sound(w) && Enabled(w, step) && (step.CompactNow? || step.CompactIfDue?)
    ensures Sound(Next(w, step))
  {
    var c := w.clients[step.replica];
    match step
    case CompactNow(r, h) =>
      var written := Compact(c, w.s, h);
      CompactWrites(c, w.s, h);
      CompactKeeps(w, r, written.s, written.c);
    case CompactIfDue(r, h, due) =>
      var compaction := MaybeCompact(c, w.s, h, due);
      MaybeCompactWrites(c, w.s, h, due);
      CompactKeeps(w, r, compaction.s, compaction.c);
  }

  lemma MaybeCompactWrites(c: Client, s: Blobs, h: Host, due: (nat, bool) -> bool)
    requires MayOverwrite(c, s)
    requires s.snapshot.Some? ==> s.snapshot.value.Sealed? && s.snapshot.value.body.Fold?
    ensures var w := MaybeCompact(c, s, h, due);
            w.c == c.(logLen := w.c.logLen) &&
            (w.s == s || (w.s == s.(snapshot := Some(SnapshotOf(c))) && !Exceeds(CurrentCoverage(s), Subsumed(c))))
  {
    CompactWrites(c, s, h);
  }

  lemma StepKeeps(w: World, step: Step)
    requires Sound(w) && Enabled(w, step)
    ensures Sound(Next(w, step))
  {
    match step
    case Open(r) => OpenKeeps(w, r);
    case ApplyEdit(r, h, edit) => EditKeeps(w, r, h, edit);
    case PushCover(r, h, body) =>
      assert w.clients[r] == w.clients[r].(engine := w.clients[r].engine);
      AppendKeepsSound(w, r, h, KCover, body, w.clients[r].engine);
    case AdoptSnapshot(r, h, trusts, order, rule) => AdoptKeepsSound(w, r, h, trusts, order, rule);
    case CompactNow(_, _) => CompactStepKeeps(w, step);
    case CompactIfDue(_, _, _) => CompactStepKeeps(w, step);
    case Seal(r) =>
      assert ClientSound(w.hist, w.excused, w.clients[r]);
      SnapshotsAreHonest(w.hist, w.excused, w.clients[r]);
    case Deliver(env) => ReplaceKeeps(w, env);
    case Sweep(dots) => SweepKeeps(w, dots);
    case Plant(d, env) => PlantKeeps(w, d, env);
    case Close(_) =>
    case SetHead(_, _) =>
    case Outage(_) =>
    case _ => ReadStepKeeps(w, step);
  }
}
