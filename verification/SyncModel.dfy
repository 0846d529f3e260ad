/**
  What one sync client and one blob store are, and what each client call makes of them. The functions here
  specify the methods of `SyncClient.BlobSyncClient`, and the runs of many clients in `Fleet`.

  The seams of the original are values here: an engine is the set of deltas merged into it, a sealer pairs a
  kind with a plaintext and can refuse any envelope, and a classifier is any function of the calls made so far.
*/
module SyncModel {
  import opened Wrappers
  import opened Counters
  import Decimal

  // ----- identities and objects -----

  type Replica = string

  /** Per replica, the next counter: entry `n` lies below the frontier iff `n < frontier[replica]`. */
  type Frontier = map<Replica, nat>

  datatype Dot = Dot(replica: Replica, counter: nat)

  datatype Delta = Delta(id: nat)

  datatype Kind = KDelta | KSnapshot | KCover

  datatype Plaintext = Change(delta: Delta) | Fold(covered: Frontier, state: set<Delta>) | Note(id: nat)

  /** `prev` is the chain hash: it names the envelope it was computed from, or nothing for an empty hash. */
  datatype Envelope =
    | Sealed(kind: Kind, counter: nat, prev: Option<Envelope>, body: Plaintext)
    | Corrupt(id: nat)

  /** A content hash: equal etags mean equal objects. */
  datatype Etag = Etag(of: Envelope)

  predicate Below(f: Frontier, d: Dot) {
    d.counter < At(f, d.replica)
  }

  // ----- the store -----

  datatype Key = LogObject(dot: Dot) | HeadPointer(replica: Replica) | SnapshotPointer | HeadListing | LogListing

  /** `gone` are the reclaimed log objects; `down` are the keys whose every access currently fails. */
  datatype Blobs = Blobs(log: map<Dot, Envelope>, heads: map<Replica, string>, snapshot: Option<Envelope>,
                         gone: set<Dot>, down: set<Key>)

  datatype Read = Found(env: Envelope) | Absent | Failed

  /** `read_log`: a reclaimed object reads like one never written. */
  function ReadLog(s: Blobs, d: Dot): Read {
    if LogObject(d) in s.down then Failed else if d in s.log then Found(s.log[d]) else Absent
  }

  /** The count a head pointer holds, if it decodes. */
  function HeadCount(s: Blobs, r: Replica): Option<nat> {
    if r in s.heads then Decimal.ParseU64(s.heads[r]) else None
  }

  // ----- the client -----

  datatype Cause = Unopenable | MergeFailed | Rejected | Vanished

  datatype Verdict = Accept | Hold | Reject | Drop

  /**
    The fields of a client, then the book of what became of each dot, which no step reads: `folded` merged,
    `covers` handed to the cover fold, `suppressed` dropped at some time, `adopted` claimed by an accepted snapshot.
  */
  datatype Client = Client(
    replica: Replica, next: nat, prev: Option<Envelope>, pull: Frontier,
    held: set<Dot>, stalled: map<Dot, Cause>, dropped: set<Dot>, quarantined: nat,
    logLen: nat, rejections: nat, rejectedEtag: Option<Etag>, engine: set<Delta>,
    folded: set<Dot>, covers: set<Dot>, suppressed: set<Dot>, adopted: set<Dot>)

  function Fresh(replica: Replica): Client {
    Client(replica, 0, None, map[], {}, map[], {}, 0, 0, 0, None, {}, {}, {}, {}, {})
  }

  /** What the seams do during one call: which envelopes open, which deltas and states merge, whether sealing works. */
  datatype Host = Host(opens: Envelope -> bool, merges: Delta -> bool, restores: set<Delta> -> bool, seals: bool)

  predicate Opens(h: Host, kind: Kind, env: Envelope) {
    env.Sealed? && env.kind == kind && h.opens(env)
  }

  predicate Merges(h: Host, env: Envelope) {
    env.Sealed? && env.body.Change? && h.merges(env.body.delta)
  }

  /** The calls a caller's closures have seen. A closure with state is a function of these. */
  datatype Call = Judged(dot: Dot, env: Envelope) | Covered(dot: Dot, env: Envelope)

  type Trail = seq<Call>

  type Classifier = (Trail, Dot, Envelope) -> Verdict

  // ----- appending -----

  datatype Written = Written(c: Client, s: Blobs, ok: bool)

  /** An immutable put: an object already there stays. */
  function Stored(s: Blobs, dot: Dot, env: Envelope): Blobs {
    if dot in s.log then s else s.(log := s.log[dot := env], gone := s.gone - {dot})
  }

  /** The entry is in the log: the counter and the chain hash move on. */
  function Recorded(c: Client, env: Envelope, kind: Kind): Client {
    var dot := Dot(c.replica, c.next);
    var moved := c.(next := c.next + 1, prev := Some(env));
    if kind == KCover then moved.(covers := c.covers + {dot}) else moved.(folded := c.folded + {dot})
  }

  /** The head pointer shows the entry: the client counts it as seen. */
  function Announced(c: Client): Client {
    c.(pull := c.pull[c.replica := Max(At(c.pull, c.replica), c.next)])
  }

  function Append(c: Client, s: Blobs, h: Host, kind: Kind, body: Plaintext): Written {
    var dot, env := Dot(c.replica, c.next), Sealed(kind, c.next, c.prev, body);
    if !h.seals || LogObject(dot) in s.down then Written(c.(prev := None), s, false)
    else
      var s1, c1 := Stored(s, dot, env), Recorded(c, env, kind);
      if HeadPointer(c.replica) in s.down then Written(c1, s1, false)
      else Written(Announced(c1), s1.(heads := s1.heads[c.replica := Decimal.Print(c1.next)]), true)
  }

  /** A local edit: the engine takes the delta at once, then it is appended. An edit with no delta does nothing. */
  function Apply(c: Client, s: Blobs, h: Host, edit: Option<Delta>): Written {
    match edit
    case None => Written(c, s, true)
    case Some(delta) => Append(c.(engine := c.engine + {delta}), s, h, KDelta, Change(delta))
  }

  // ----- what becomes of one fetched dot -----

  function Absorb(c: Client, d: Dot, env: Envelope): Client
    requires env.Sealed? && env.body.Change?
  {
    c.(engine := c.engine + {env.body.delta}, folded := c.folded + {d})
  }

  function Stall(c: Client, d: Dot, cause: Cause): Client {
    c.(stalled := c.stalled[d := cause])
  }

  function Quarantine(c: Client, d: Dot, cause: Cause): Client {
    Stall(c, d, cause).(quarantined := c.quarantined + 1)
  }

  /** The state of a call in progress; `merged` is its running count and `ok` says no store access has failed. */
  datatype Run = Run(c: Client, trail: Trail, merged: nat, ok: bool)

  function TryMerge(run: Run, h: Host, d: Dot, env: Envelope): Run {
    if Merges(h, env) then run.(c := Absorb(run.c, d, env), merged := run.merged + 1)
    else run.(c := Quarantine(run.c, d, MergeFailed))
  }

  // ----- pull -----

  function TakePlain(run: Run, h: Host, d: Dot, env: Envelope): Run {
    if Opens(h, KDelta, env) then TryMerge(run, h, d, env)
    else run.(c := Quarantine(run.c, d, Unopenable))
  }

  function Advance(run: Run, r: Replica, n: nat): Run {
    run.(c := run.c.(pull := run.c.pull[r := n]))
  }

  function PullGap(run: Run, s: Blobs, h: Host, r: Replica, n: nat, head: nat): Run
    decreases head - n
  {
    if n >= head then Advance(run, r, n)
    else match ReadLog(s, Dot(r, n))
      case Failed => run.(ok := false)
      case Absent => Advance(run, r, n)
      case Found(env) => PullGap(TakePlain(run, h, Dot(r, n), env), s, h, r, n + 1, head)
  }

  function PullReplica(run: Run, s: Blobs, h: Host, r: Replica): Run {
    if HeadPointer(r) in s.down then run.(ok := false)
    else if r !in s.heads then run
    else match HeadCount(s, r)
      case None => run.(c := run.c.(quarantined := run.c.quarantined + 1))
      case Some(head) => PullGap(run, s, h, r, At(run.c.pull, r), head)
  }

  function PullAll(run: Run, s: Blobs, h: Host, order: seq<Replica>): Run
    decreases order
  {
    if order == [] || !run.ok then run else PullAll(PullReplica(run, s, h, order[0]), s, h, order[1..])
  }

  function Pull(c: Client, s: Blobs, h: Host, order: seq<Replica>): Run {
    if HeadListing in s.down then Run(c, [], 0, false) else PullAll(Run(c, [], 0, true), s, h, order)
  }

  // ----- pull_verified -----

  function Unhold(run: Run, d: Dot): Run {
    run.(c := run.c.(held := run.c.held - {d}))
  }

  function DropDot(run: Run, d: Dot): Run {
    run.(c := run.c.(dropped := run.c.dropped + {d}, suppressed := run.c.suppressed + {d}))
  }

  function DrainOne(run: Run, s: Blobs, h: Host, g: Classifier, d: Dot): Run {
    match ReadLog(s, d)
    case Failed => run.(ok := false)
    case Absent => var u := Unhold(run, d); u.(c := Stall(u.c, d, Vanished))
    case Found(env) =>
      if !Opens(h, KDelta, env) then var u := Unhold(run, d); u.(c := Quarantine(u.c, d, Unopenable))
      else
        var heard := run.(trail := run.trail + [Judged(d, env)]);
        match g(run.trail, d, env)
        case Accept => TryMerge(Unhold(heard, d), h, d, env)
        case Reject => var u := Unhold(heard, d); u.(c := Stall(u.c, d, Rejected))
        case Drop => DropDot(Unhold(heard, d), d)
        case Hold => heard
  }

  function Drain(run: Run, s: Blobs, h: Host, g: Classifier, order: seq<Dot>): Run
    decreases order
  {
    if order == [] || !run.ok then run else Drain(DrainOne(run, s, h, g, order[0]), s, h, g, order[1..])
  }

  datatype Pending = Pending(dot: Dot, env: Envelope)

  /** Phase 1 in progress: the deltas opened so far wait in `buffer` for the covers still to be folded. */
  datatype Scan = Scan(run: Run, buffer: seq<Pending>)

  function ScanOne(scan: Scan, h: Host, d: Dot, env: Envelope): Scan {
    var run := scan.run;
    if Opens(h, KCover, env) then
      scan.(run := run.(c := run.c.(covers := run.c.covers + {d}), trail := run.trail + [Covered(d, env)]))
    else if Opens(h, KDelta, env) then scan.(buffer := scan.buffer + [Pending(d, env)])
    else scan.(run := run.(c := Quarantine(run.c, d, Unopenable)))
  }

  function ScanGap(scan: Scan, s: Blobs, h: Host, r: Replica, n: nat, head: nat): Scan
    decreases head - n
  {
    if n >= head then scan.(run := Advance(scan.run, r, n))
    else match ReadLog(s, Dot(r, n))
      case Failed => scan.(run := scan.run.(ok := false))
      case Absent => scan.(run := Advance(scan.run, r, n))
      case Found(env) => ScanGap(ScanOne(scan, h, Dot(r, n), env), s, h, r, n + 1, head)
  }

  function ScanReplica(scan: Scan, s: Blobs, h: Host, r: Replica): Scan {
    var run := scan.run;
    if HeadPointer(r) in s.down then scan.(run := run.(ok := false))
    else if r !in s.heads then scan
    else match HeadCount(s, r)
      case None => scan.(run := run.(c := run.c.(quarantined := run.c.quarantined + 1)))
      case Some(head) => ScanGap(scan, s, h, r, At(run.c.pull, r), head)
  }

  function ScanAll(scan: Scan, s: Blobs, h: Host, order: seq<Replica>): Scan
    decreases order
  {
    if order == [] || !scan.run.ok then scan else ScanAll(ScanReplica(scan, s, h, order[0]), s, h, order[1..])
  }

  function JudgeOne(run: Run, h: Host, g: Classifier, p: Pending): Run {
    var heard := run.(trail := run.trail + [Judged(p.dot, p.env)]);
    match g(run.trail, p.dot, p.env)
    case Accept => TryMerge(heard, h, p.dot, p.env)
    case Hold => heard.(c := heard.c.(held := heard.c.held + {p.dot}))
    case Reject => heard.(c := Stall(heard.c, p.dot, Rejected))
    case Drop => DropDot(heard, p.dot)
  }

  function Judge(run: Run, h: Host, g: Classifier, buffer: seq<Pending>): Run
    decreases buffer
  {
    if buffer == [] then run else Judge(JudgeOne(run, h, g, buffer[0]), h, g, buffer[1..])
  }

  /** The end of phase 1: a failed access gives the call up with the buffered deltas unjudged. */
  function Scanned(c: Client, s: Blobs, h: Host, g: Classifier, drain: seq<Dot>, order: seq<Replica>): Scan {
    var drained := Drain(Run(c, [], 0, true), s, h, g, drain);
    if !drained.ok then Scan(drained, [])
    else if HeadListing in s.down then Scan(drained.(ok := false), [])
    else ScanAll(Scan(drained, []), s, h, order)
  }

  function PullVerified(c: Client, s: Blobs, h: Host, g: Classifier, drain: seq<Dot>, order: seq<Replica>): Run {
    var scan := Scanned(c, s, h, g, drain, order);
    if scan.run.ok then Judge(scan.run, h, g, scan.buffer) else scan.run
  }

  // ----- retry_stalled -----

  function Unstall(run: Run, d: Dot): Run {
    run.(c := run.c.(stalled := run.c.stalled - {d}), merged := run.merged + 1)
  }

  /** `merged` counts the stalls cleared or parked again. */
  function RetryOne(run: Run, s: Blobs, h: Host, g: Classifier, d: Dot): Run {
    match ReadLog(s, d)
    case Failed => run.(ok := false)
    case Absent => run
    case Found(env) =>
      if Opens(h, KCover, env) then
        var u := Unstall(run, d);
        u.(c := u.c.(covers := u.c.covers + {d}), trail := run.trail + [Covered(d, env)])
      else if !Opens(h, KDelta, env) then run
      else
        var heard := run.(trail := run.trail + [Judged(d, env)]);
        match g(run.trail, d, env)
        case Accept => if Merges(h, env) then var u := Unstall(heard, d); u.(c := Absorb(u.c, d, env)) else heard
        case Hold => var u := Unstall(heard, d); u.(c := u.c.(held := u.c.held + {d}))
        case Drop => DropDot(Unstall(heard, d), d)
        case Reject => heard
  }

  function RetryAll(run: Run, s: Blobs, h: Host, g: Classifier, order: seq<Dot>): Run
    decreases order
  {
    if order == [] || !run.ok then run else RetryAll(RetryOne(run, s, h, g, order[0]), s, h, g, order[1..])
  }

  function RetryStalled(c: Client, s: Blobs, h: Host, g: Classifier, order: seq<Dot>): Run {
    RetryAll(Run(c, [], 0, true), s, h, g, order)
  }

  // ----- the subsumed frontier -----

  function Blockers(c: Client): set<Dot> {
    c.held + c.stalled.Keys
  }

  /** The first blocked counter of `r` at or after `n`, or `bound` if there is none below it. */
  function FirstBlocked(blockers: set<Dot>, r: Replica, n: nat, bound: nat): (m: nat)
    requires n <= bound
    ensures n <= m <= bound
    ensures m < bound ==> Dot(r, m) in blockers
    ensures forall k :: n <= k < m ==> Dot(r, k) !in blockers
    decreases bound - n
  {
    if n == bound then bound else if Dot(r, n) in blockers then n else FirstBlocked(blockers, r, n + 1, bound)
  }

  function Subsumed(c: Client): Frontier {
    map r | r in c.pull :: FirstBlocked(Blockers(c), r, 0, c.pull[r])
  }

  // ----- snapshots -----

  datatype Coverage = Published(covered: Frontier) | Unpublished | Unreadable

  /** What the store's snapshot claims to cover, as this client is willing to read it. */
  function CoveredBySnapshot(c: Client, s: Blobs, h: Host): Coverage {
    if SnapshotPointer in s.down then Unreadable
    else match s.snapshot
      case None => Unpublished
      case Some(env) =>
        if c.rejectedEtag == Some(Etag(env)) then Unpublished
        else if !Opens(h, KSnapshot, env) then Unreadable
        else if env.body.Fold? then Published(env.body.covered) else Unpublished
  }

  /** Some replica is covered further by `f` than by `g`. */
  predicate Exceeds(f: Frontier, g: Frontier) {
    exists r :: r in f && f[r] > At(g, r)
  }

  predicate NeedsAdoption(c: Client, covered: Frontier) {
    Exceeds(covered, Subsumed(c)) || exists d :: d in c.dropped && Below(covered, d)
  }

  function SnapshotOf(c: Client): Envelope {
    Sealed(KSnapshot, c.next, c.prev, Fold(Subsumed(c), c.engine))
  }

  /** `compact`, with its check and its put in one step. */
  function Compact(c: Client, s: Blobs, h: Host): Written {
    match CoveredBySnapshot(c, s, h)
    case Unreadable => Written(c, s, false)
    case Published(existing) =>
      if Exceeds(existing, Subsumed(c)) then Written(c, s, true) else Publish(c, s, h)
    case Unpublished => Publish(c, s, h)
  }

  function Publish(c: Client, s: Blobs, h: Host): Written {
    if !h.seals then Written(c, s, false)
    else
      var s1 := s.(snapshot := Some(SnapshotOf(c)));
      if LogListing in s.down then Written(c, s1, false) else Written(c.(logLen := |s.log|), s1, true)
  }

  datatype Compaction = Compaction(c: Client, s: Blobs, ok: bool, reported: bool)

  /** `maybe_compact`: `due` is the policy's decision from the accrued count and the presence of a snapshot. */
  function MaybeCompact(c: Client, s: Blobs, h: Host, due: (nat, bool) -> bool): Compaction {
    if LogListing in s.down || SnapshotPointer in s.down then Compaction(c, s, false, false)
    else
      var total := |s.log|;
      var accrued := if total >= c.logLen then total - c.logLen else 0;
      if !due(accrued, s.snapshot.Some?) then Compaction(c, s, true, false)
      else match CoveredBySnapshot(c, s, h)
        case Unreadable => Compaction(c, s, false, false)
        case Unpublished => Compacted(c, s, h)
        case Published(covered) =>
          if Exceeds(Subsumed(c), covered) then Compacted(c, s, h)
          else Compaction(c.(logLen := total), s, true, false)
  }

  function Compacted(c: Client, s: Blobs, h: Host): Compaction {
    var w := Compact(c, s, h);
    Compaction(w.c, w.s, w.ok, w.ok)
  }

  // ----- adopting a snapshot -----

  /** The frontier after passing the absent counters from `n`, never beyond `cap`. */
  function SkipAbsent(s: Blobs, r: Replica, n: nat, cap: nat): (m: nat)
    ensures n <= m && (m <= cap || m == n)
    ensures forall k :: n <= k < m ==> ReadLog(s, Dot(r, k)) == Absent
    ensures m < cap ==> ReadLog(s, Dot(r, m)) != Absent
    decreases cap - n
  {
    if n < cap && ReadLog(s, Dot(r, n)) == Absent then SkipAbsent(s, r, n + 1, cap) else n
  }

  function Purge(dots: set<Dot>, r: Replica, limit: nat): set<Dot> {
    set d | d in dots && !(d.replica == r && d.counter < limit)
  }

  /** Where the purge of held and stalled dots stops: the coded limit is the frontier reached, the bounded one also
      stops at what the snapshot claims. */
  datatype PurgeRule = Coded | Bounded

  function PurgeLimit(rule: PurgeRule, reached: nat, cap: nat): nat {
    match rule
    case Coded => reached
    case Bounded => Min(reached, cap)
  }

  /** One claim: the frontier moves over the absent dots below the cap, and the dots the claim settles are purged. */
  function Claim(c: Client, s: Blobs, r: Replica, claimed: nat, rule: PurgeRule): Client {
    var cap := Min(claimed, HeadCount(s, r).GetOr(0));
    var start := At(c.pull, r);
    var reached := SkipAbsent(s, r, start, cap);
    var limit := PurgeLimit(rule, reached, cap);
    c.(pull := if reached > start then c.pull[r := reached] else c.pull,
       held := Purge(c.held, r, limit),
       stalled := map d | d in Purge(c.stalled.Keys, r, limit) :: c.stalled[d],
       dropped := Purge(c.dropped, r, cap))
  }

  function AdoptReplica(run: Run, s: Blobs, r: Replica, claimed: nat, rule: PurgeRule): Run {
    if HeadPointer(r) in s.down then run.(ok := false) else run.(c := Claim(run.c, s, r, claimed, rule))
  }

  function AdoptAll(run: Run, s: Blobs, covered: Frontier, order: seq<Replica>, rule: PurgeRule): Run
    requires forall i :: 0 <= i < |order| ==> order[i] in covered
    decreases order
  {
    if order == [] || !run.ok then run
    else AdoptAll(AdoptReplica(run, s, order[0], covered[order[0]], rule), s, covered, order[1..], rule)
  }

  /** The dots a covered frontier claims. */
  function Claimed(covered: Frontier): (dots: set<Dot>)
    ensures forall d :: d in dots <==> Below(covered, d)
  {
    set r, n | r in covered && 0 <= n < covered[r] :: Dot(r, n)
  }

  /** The snapshot this client would merge now, if any: present, not refused before, opened and well formed. */
  datatype Offer = Nothing | Failure | Refused(etag: Etag) | Offered(covered: Frontier, state: set<Delta>)

  function OfferOf(c: Client, s: Blobs, h: Host, trusts: Envelope -> bool): Offer {
    if SnapshotPointer in s.down then Failure
    else match s.snapshot
      case None => Nothing
      case Some(env) =>
        if c.rejectedEtag == Some(Etag(env)) then Nothing
        else if !Opens(h, KSnapshot, env) then Failure
        else if !trusts(env) then Refused(Etag(env))
        else if !env.body.Fold? then Nothing
        else if !h.restores(env.body.state) then Failure
        else Offered(env.body.covered, env.body.state)
  }

  function Restore(c: Client, covered: Frontier, state: set<Delta>): Client {
    c.(engine := c.engine + state, adopted := c.adopted + Claimed(covered))
  }

  /** `adopt_snapshot_baseline`; `trusts` is the caller's check of the snapshot's author. */
  function Adopt(c: Client, s: Blobs, h: Host, trusts: Envelope -> bool, order: seq<Replica>, rule: PurgeRule): Run
    requires OfferOf(c, s, h, trusts).Offered? ==>
               forall i :: 0 <= i < |order| ==> order[i] in OfferOf(c, s, h, trusts).covered
  {
    match OfferOf(c, s, h, trusts)
    case Nothing => Run(c, [], 0, true)
    case Failure => Run(c, [], 0, false)
    case Refused(etag) => Run(c.(rejections := c.rejections + 1, rejectedEtag := Some(etag)), [], 0, true)
    case Offered(covered, state) => AdoptAll(Run(Restore(c, covered, state), [], 0, true), s, covered, order, rule)
  }

  // ----- dropped dots -----

  datatype Readmission = Readmission(c: Client, ok: bool, admitted: bool)

  function Readmit(c: Client, s: Blobs, h: Host, admits: Envelope -> bool, d: Dot): Readmission {
    if d !in c.dropped then Readmission(c, true, false)
    else match ReadLog(s, d)
      case Failed => Readmission(c, false, false)
      case Absent => Readmission(c.(dropped := c.dropped - {d}), true, false)
      case Found(env) =>
        if !Opens(h, KDelta, env) || !admits(env) || !Merges(h, env) then Readmission(c, true, false)
        else Readmission(Absorb(c, d, env).(dropped := c.dropped - {d}), true, true)
  }

  function Forget(c: Client, d: Dot): Client {
    c.(dropped := c.dropped - {d})
  }
}
