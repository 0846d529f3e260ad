/**
  The data-channel half of the server: its tables, and what each handler makes of them. Every handler is one atomic
  step here. The functions of this module specify the methods of `Server.Tables` and the runs of `ServerRuns`.
*/
module ServerModel {
  import opened Wrappers
  import opened Bytes
  import opened Counters
  import opened Meter
  import Decimal
  import Text
  import Utf8

  // ----- identities and rows -----

  type Id = nat

  type Replica = string

  /** The keys of one tree's blobs. */
  datatype Sub = Log(replica: Replica, counter: nat) | Snapshot | Head(owner: Replica) | Other(name: string)

  datatype Slot = Slot(tree: Id, sub: Sub)

  /** One replica of one tree: the key of the floor and coverage tables. */
  datatype Lane = Lane(tree: Id, replica: Replica)

  datatype Watch = Watch(tree: Id, member: Id, replica: Replica)

  datatype Seat = Seat(tree: Id, member: Id)

  /** A content hash: equal tags mean equal bytes. */
  datatype Tag = Tag(of: seq<byte>)

  /** An index row. `charged` is the book: what its creation added to the owner's byte meter. */
  datatype Row = Row(tag: Tag, size: nat, author: Id, created: real, pending: Option<real>, charged: nat)

  datatype Coverage = Coverage(counter: nat, tag: Tag)

  datatype Seen = Seen(counter: nat, at: real)

  datatype Db = Db(
    accounts: map<Id, Account>, owners: map<Id, Id>, access: set<Seat>, buckets: map<Seat, Bucket>,
    index: map<Slot, Row>, objects: map<Slot, seq<byte>>,
    floors: map<Lane, nat>, covered: map<Lane, Coverage>, seen: map<Watch, Seen>)

  const I64_MAX: nat := 0x7fff_ffff_ffff_ffff

  const MAX_OBJECT_BYTES: nat := 6 * 1024 * 1024
  const HEADS_MAX_BYTES: nat := 4 * 1024
  const MAX_DELTA_BYTES: nat := 1024 * 1024
  const MAX_REPLICAS: nat := 4096
  const MAX_REPLICA_LEN: nat := 128

  /** `i64::try_from(n).unwrap_or(i64::MAX)`. */
  function Clamp(n: nat): nat { if n <= I64_MAX then n else I64_MAX }

  function FloorOf(db: Db, lane: Lane): nat {
    if lane in db.floors then db.floors[lane] else 0
  }

  function CoveredOf(db: Db, lane: Lane): nat {
    if lane in db.covered then db.covered[lane].counter else 0
  }

  // ----- head pointers -----

  /** `i64::from_str`: an optional sign, at least one digit, no overflow. */
  function ParseI64(s: string): Option<int> {
    var negative := |s| > 0 && s[0] == '-';
    var digits := if |s| > 0 && (s[0] == '+' || s[0] == '-') then s[1..] else s;
    if digits == [] || !Decimal.AllDigits(digits) then None
    else
      var n: int := Decimal.Value(digits);
      if negative then (if n <= I64_MAX + 1 then Some(-n) else None)
      else if n <= I64_MAX then Some(n) else None
  }

  function ParseCount(body: seq<byte>): Option<int> {
    match Utf8.Decode(body)
    case None => None
    case Some(text) => ParseI64(Text.Trim(text))
  }

  /** A replica's published head; none or an unreadable one counts as 0. */
  function HeadCount(db: Db, lane: Lane): int {
    var slot := Slot(lane.tree, Head(lane.replica));
    if slot in db.objects then ParseCount(db.objects[slot]).GetOr(0) else 0
  }

  // ----- puts -----

  /** `covered` is the decoded coverage header of a snapshot; `None` if it is missing or malformed. */
  datatype Put = Put(tree: Id, member: Id, sub: Sub, ifAbsent: bool, body: seq<byte>,
                     covered: Option<map<Replica, nat>>, privileged: bool)

  datatype Reply =
    | Accepted(tag: Tag) | Noted | Exists(tag: Tag)
    | BadRequest | NotFound | Forbidden | Internal
    | BelowFloor | CoveredAnomaly | HeadRollback
    | OverRate(retryAfter: nat) | OverCapacity

  datatype Outcome = Outcome(db: Db, reply: Reply)

  function CapFor(sub: Sub): nat {
    match sub
    case Snapshot => MAX_OBJECT_BYTES
    case Head(_) => HEADS_MAX_BYTES
    case _ => MAX_DELTA_BYTES
  }

  predicate Known(db: Db, tree: Id) {
    tree in db.owners && db.owners[tree] in db.accounts
  }

  function BucketOf(db: Db, seat: Seat): Option<Bucket> {
    if seat in db.buckets then Some(db.buckets[seat]) else None
  }

  function ChargeFor(db: Db, p: Put, axis: Axis, now: real): Charge
    requires Known(db, p.tree)
  {
    ChargeWrite(db.accounts[db.owners[p.tree]], BucketOf(db, Seat(p.tree, p.member)), |p.body|, axis, now, p.privileged)
  }

  /** The meter's rows after a charge that went through. */
  function Debited(db: Db, p: Put, charge: Charge): Db
    requires Known(db, p.tree) && charge.Charged?
  {
    db.(accounts := db.accounts[db.owners[p.tree] := charge.account],
        buckets := db.buckets[Seat(p.tree, p.member) := charge.bucket])
  }

  function Refusal(charge: Charge): Reply
    requires !charge.Charged?
  {
    if charge.RateLimited? then OverRate(charge.retryAfter) else OverCapacity
  }

  /** The object and its index row. An overwrite keeps the row's creation time, its mark and its charge. */
  function Written(db: Db, p: Put, now: real, charged: nat): Db {
    var slot := Slot(p.tree, p.sub);
    var row := if slot in db.index then db.index[slot].(tag := Tag(p.body), size := |p.body|, author := p.member)
               else Row(Tag(p.body), |p.body|, p.member, now, None, charged);
    db.(objects := db.objects[slot := p.body], index := db.index[slot := row])
  }

  function ChargeThenWrite(db: Db, p: Put, axis: Axis, now: real): Outcome
    requires Known(db, p.tree)
  {
    var charge := ChargeFor(db, p, axis, now);
    if !charge.Charged? then Outcome(db, Refusal(charge))
    else Outcome(Written(Debited(db, p, charge), p, now, if axis.Accumulating? then |p.body| else 0),
                 Accepted(Tag(p.body)))
  }

  /** `put_log_blob`. */
  function PutLog(db: Db, p: Put, now: real): Outcome
    requires Known(db, p.tree) && p.sub.Log?
  {
    var slot := Slot(p.tree, p.sub);
    if !p.ifAbsent || p.sub.counter > I64_MAX then Outcome(db, BadRequest)
    else if p.sub.counter < FloorOf(db, Lane(p.tree, p.sub.replica)) then Outcome(db, BelowFloor)
    else if slot in db.index then Outcome(db, Exists(db.index[slot].tag))
    else ChargeThenWrite(db, p, Accumulating, now)
  }

  /** `put_pointer_blob`. */
  function PutPointer(db: Db, p: Put, now: real): Outcome
    requires Known(db, p.tree) && (p.sub.Head? || p.sub.Other?)
  {
    var slot := Slot(p.tree, p.sub);
    if p.ifAbsent then
      if slot in db.index then Outcome(db, Exists(db.index[slot].tag))
      else ChargeThenWrite(db, p, Accumulating, now)
    else if p.sub.Head? && ParseCount(p.body).None? then Outcome(db, BadRequest)
    else if p.sub.Head? && ParseCount(p.body).value < HeadCount(db, Lane(p.tree, p.sub.owner)) then
      Outcome(db, HeadRollback)
    else ChargeThenWrite(db, p, PointerOnly, now)
  }

  // ----- the snapshot pointer -----

  predicate WellFormedCoverage(covered: map<Replica, nat>) {
    |covered| <= MAX_REPLICAS && forall r :: r in covered ==> 0 < |r| <= MAX_REPLICA_LEN
  }

  function Clamped(covered: map<Replica, nat>): map<Replica, nat> {
    map r | r in covered :: Clamp(covered[r])
  }

  /** The counters of the indexed log rows of a lane. */
  function Indexed(db: Db, lane: Lane): set<nat> {
    set k | k in db.index && k.sub.Log? && k.tree == lane.tree && k.sub.replica == lane.replica :: k.sub.counter
  }

  /** What a lane really retains: the floor, or one past some indexed counter. */
  predicate Retains(db: Db, lane: Lane, counter: nat) {
    counter <= FloorOf(db, lane) || exists n :: n in Indexed(db, lane) && counter <= n + 1
  }

  /** What the server computes of that: the successor of the greatest counter wraps around at 64 bits, and then only
      the floor is left. */
  predicate WithinBound(db: Db, lane: Lane, counter: nat) {
    counter <= FloorOf(db, lane) ||
    (Retains(db, lane, counter) && forall n :: n in Indexed(db, lane) ==> n < I64_MAX)
  }

  /** Guard (a): no coverage past what the tree retains. */
  predicate OverClaims(db: Db, tree: Id, covered: map<Replica, nat>) {
    exists r :: r in covered && !WithinBound(db, Lane(tree, r), covered[r])
  }

  /** Guard (b): every floored replica is covered at its floor or above. */
  predicate BelowRatchet(db: Db, tree: Id, covered: map<Replica, nat>) {
    exists lane :: lane in db.floors && lane.tree == tree &&
      !(lane.replica in covered && covered[lane.replica] >= db.floors[lane])
  }

  /** Guard (c): no published counter goes back. */
  predicate Regresses(db: Db, tree: Id, covered: map<Replica, nat>) {
    exists lane :: lane in db.covered && lane.tree == tree && At(covered, lane.replica) < db.covered[lane].counter
  }

  /** The tree's coverage rows are replaced, each bound to the new snapshot. */
  function Published(db: Db, tree: Id, covered: map<Replica, nat>, tag: Tag): Db {
    var kept := map lane | lane in db.covered && lane.tree != tree :: db.covered[lane];
    var lanes := set r | r in covered :: Lane(tree, r);
    db.(covered := kept + map lane | lane in lanes :: Coverage(covered[lane.replica], tag))
  }

  /** `put_snapshot_blob`. */
  function PutSnapshot(db: Db, p: Put, now: real): Outcome
    requires Known(db, p.tree) && p.sub.Snapshot?
  {
    if p.covered.None? || !WellFormedCoverage(p.covered.value) then Outcome(db, BadRequest)
    else
      var covered := Clamped(p.covered.value);
      if OverClaims(db, p.tree, covered) || BelowRatchet(db, p.tree, covered) || Regresses(db, p.tree, covered) then
        Outcome(db, CoveredAnomaly)
      else
        var written := ChargeThenWrite(db, p, PointerOnly, now);
        if written.reply.Accepted? then Outcome(Published(written.db, p.tree, covered, Tag(p.body)), written.reply)
        else written
  }

  /** `put_blob`: the size limit of the namespace, the tree, then one of the three kinds of write. */
  function PutBlob(db: Db, p: Put, now: real): Outcome {
    if |p.body| > CapFor(p.sub) then Outcome(db, BadRequest)
    else if p.tree !in db.owners then Outcome(db, NotFound)
    else if db.owners[p.tree] !in db.accounts then Outcome(db, Internal)
    else match p.sub
      case Log(_, _) => PutLog(db, p, now)
      case Snapshot => PutSnapshot(db, p, now)
      case _ => PutPointer(db, p, now)
  }

  // ----- reads -----

  datatype Fetch = Served(body: seq<byte>) | Gone | Missing

  /** `get_blob`: for log keys the index row decides; without one, the floor tells reaped from not yet written. */
  function GetBlob(db: Db, slot: Slot): Fetch {
    if slot.tree !in db.owners then Missing
    else if slot.sub.Log? && slot !in db.index then
      if slot.sub.counter < FloorOf(db, Lane(slot.tree, slot.sub.replica)) then Gone else Missing
    else if slot in db.objects then Served(db.objects[slot])
    else Missing
  }

  // ----- frontier reports -----

  predicate Current(db: Db, seat: Seat) {
    seat in db.access || (seat.tree in db.owners && db.owners[seat.tree] == seat.member)
  }

  predicate WellFormedReport(frontier: map<Replica, nat>) {
    |frontier| <= MAX_REPLICAS && forall r :: r in frontier ==> |r| <= MAX_REPLICA_LEN
  }

  function WithReport(db: Db, seat: Seat, frontier: map<Replica, nat>, now: real): Db {
    db.(seen := db.seen + map r | r in frontier :: Watch(seat.tree, seat.member, r) := Seen(Clamp(frontier[r]), now))
  }

  /** `put_frontier`. */
  function PutFrontier(db: Db, seat: Seat, frontier: map<Replica, nat>, now: real): Outcome {
    if !WellFormedReport(frontier) then Outcome(db, BadRequest)
    else if seat.tree !in db.owners then Outcome(db, NotFound)
    else if !Current(db, seat) then Outcome(db, Forbidden)
    else Outcome(WithReport(db, seat, frontier, now), Noted)
  }

  // ----- the mark -----

  /** A report row inside the activity window, of a current member. */
  predicate Counts(db: Db, watch: Watch, since: real) {
    watch in db.seen && db.seen[watch].at >= since && Current(db, Seat(watch.tree, watch.member))
  }

  function Active(db: Db, tree: Id, since: real): set<Id> {
    set w | w in db.seen && w.tree == tree && Counts(db, w, since) :: w.member
  }

  /** What an active member reported of a replica; a replica missing from the report reads 0. */
  function ReportOf(db: Db, watch: Watch, since: real): nat {
    if Counts(db, watch, since) then db.seen[watch].counter else 0
  }

  /** Gate 2: no constraint without active members, else no higher than any of them reported. */
  function Lowered(db: Db, lane: Lane, counter: nat, since: real): (low: nat)
    ensures low <= counter
  {
    var reports := set m | m in Active(db, lane.tree, since) :: ReportOf(db, Watch(lane.tree, m, lane.replica), since);
    Lowest(reports + {counter})
  }

  function Lowest(s: set<nat>): (low: nat)
    requires s != {}
    ensures low in s && forall n :: n in s ==> low <= n
  {
    LowestExists(s);
    var low :| low in s && forall n :: n in s ==> low <= n;
    low
  }

  lemma {:induction false} LowestExists(s: set<nat>)
    requires s != {}
    ensures exists low :: low in s && forall n :: n in s ==> low <= n
  {
    var x :| x in s;
    var rest := s - {x};
    assert forall n :: n in s ==> n in rest || n == x;
    if rest != {} {
      LowestExists(rest);
      var low :| low in rest && forall n :: n in rest ==> low <= n;
      assert Min(x, low) in s && forall n :: n in s ==> Min(x, low) <= n;
    }
  }

  /** Gate 1: the coverage rows still bound to the live snapshot. */
  predicate Trusted(db: Db, lane: Lane) {
    var snapshot := Slot(lane.tree, Snapshot);
    lane in db.covered && snapshot in db.index && db.covered[lane].tag == db.index[snapshot].tag
  }

  function RaisedFloor(db: Db, lane: Lane, since: real): nat
    requires lane in db.covered
  {
    Max(FloorOf(db, lane), Lowered(db, lane, db.covered[lane].counter, since))
  }

  function RetainedFor(db: Db, tree: Id): real {
    if Known(db, tree) then db.accounts[db.owners[tree]].retained else 0.0
  }

  /** A log row the mark takes: below the new floor, not marked yet, older than the retained history. */
  predicate Marks(db: Db, tree: Id, since: real, now: real, slot: Slot) {
    slot in db.index && slot.tree == tree && slot.sub.Log? && db.index[slot].pending.None? &&
    Trusted(db, Lane(tree, slot.sub.replica)) &&
    slot.sub.counter < RaisedFloor(db, Lane(tree, slot.sub.replica), since) &&
    db.index[slot].created < now - RetainedFor(db, tree)
  }

  /** `mark_tree`, with an activity window that starts at `since`. */
  function Mark(db: Db, tree: Id, since: real, now: real): Db {
    if tree !in db.owners then db
    else
      var floors := map lane | lane in db.covered && lane.tree == tree && Trusted(db, lane) :: RaisedFloor(db, lane, since);
      var index := map k | k in db.index ::
        if Marks(db, tree, since, now, k) then db.index[k].(pending := Some(now)) else db.index[k];
      db.(floors := db.floors + floors, index := index)
  }

  // ----- the reap -----

  /** A row marked no later than `before`: past the deletion grace. */
  predicate Due(db: Db, slot: Slot, before: real) {
    slot in db.index && slot.tree in db.owners && db.index[slot].pending.Some? && db.index[slot].pending.value <= before
  }

  /** One row of `reap_marked`: the row goes and its bytes are credited; the object delete may fail. */
  function Reap(db: Db, slot: Slot, purged: bool): Db {
    if slot !in db.index || slot.tree !in db.owners || db.index[slot].pending.None? then db
    else
      var owner := db.owners[slot.tree];
      db.(index := db.index - {slot},
          accounts := if owner in db.accounts then db.accounts[owner := Credit(db.accounts[owner], db.index[slot].size)]
                      else db.accounts,
          objects := if purged then db.objects - {slot} else db.objects)
  }

  // ----- trees and members -----

  function CreateTree(db: Db, tree: Id, owner: Id): Db {
    if tree in db.owners || owner !in db.accounts then db
    else db.(owners := db.owners[tree := owner])
  }

  /** The membership summary replaces the list; who is gone loses the token bucket too. */
  function SetMembers(db: Db, tree: Id, members: set<Id>): Db {
    if tree !in db.owners then db
    else
      var all := members + {db.owners[tree]};
      db.(access := (set seat | seat in db.access && seat.tree != tree) + (set m | m in all :: Seat(tree, m)),
          buckets := map seat | seat in db.buckets && (seat.tree == tree ==> seat.member in all) :: db.buckets[seat])
  }

  // ----- one step of the server -----

  datatype Step =
    | PutStep(p: Put, now: real)
    | ReportStep(seat: Seat, frontier: map<Replica, nat>, now: real)
    | MarkStep(tree: Id, since: real, now: real)
    | ReapStep(slot: Slot, purged: bool)
    | CreateStep(tree: Id, owner: Id)
    | MembersStep(tree: Id, members: set<Id>)

  function Next(db: Db, step: Step): Db {
    match step
    case PutStep(p, now) => PutBlob(db, p, now).db
    case ReportStep(seat, frontier, now) => PutFrontier(db, seat, frontier, now).db
    case MarkStep(tree, since, now) => Mark(db, tree, since, now)
    case ReapStep(slot, purged) => Reap(db, slot, purged)
    case CreateStep(tree, owner) => CreateTree(db, tree, owner)
    case MembersStep(tree, members) => SetMembers(db, tree, members)
  }
}
