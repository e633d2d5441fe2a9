/**
GPU-time accounting: what each sampling cycle credits to users and days, how old
days are pruned, and the one merge rule for the sampled and the scheduler's own
numbers.
*/
module Usage {
  import opened Common
  import opened Sums
  import Sacct
  import WasteTimers

  type Day = int
  type User = string

  const WASTE_MIN_SEC := 600.0
  const MAX_GAP := 60.0

  // ---------------------------------------------------------------------------
  // Data
  // ---------------------------------------------------------------------------

  /** A sampled card; `util` is absent when it is not a number. */
  datatype Card = Card(allocUser: User, users: seq<User>, util: Option<real>, idle: real, parked: real) {
    function Holder(): User {
      if allocUser != "" then allocUser else if users != [] then users[0] else ""
    }

    predicate Busy() {
      util.Some? && util.value > 5.0
    }

    predicate Wasted() {
      (if idle > parked then idle else parked) >= WASTE_MIN_SEC
    }
  }

  datatype Node = Node(stale: bool, cards: seq<Card>)

  datatype Field = Alloc | Busy | Observed | Waste

  datatype Entry = Entry(alloc: real, busy: real, observed: real, waste: real) {
    function Get(f: Field): real {
      match f
      case Alloc => alloc
      case Busy => busy
      case Observed => observed
      case Waste => waste
    }

    function Plus(e: Entry): Entry {
      Entry(alloc + e.alloc, busy + e.busy, observed + e.observed, waste + e.waste)
    }

    predicate Sound() {
      0.0 <= busy <= observed <= alloc && 0.0 <= waste <= observed
    }
  }

  const NOTHING := Entry(0.0, 0.0, 0.0, 0.0)

  datatype Coverage = Coverage(freshSec: real, staleSec: real)

  type Bucket = map<User, Entry>
  type SacctDays = map<Day, map<User, real>>

  datatype State = State(days: map<Day, Bucket>, meta: map<Day, real>, telemetry: map<Day, Coverage>,
                         sacct: SacctDays, lastTs: Option<real>)

  function EntryOf(bucket: Bucket, u: User): Entry {
    if u in bucket then bucket[u] else NOTHING
  }

  function BucketOf(days: map<Day, Bucket>, d: Day): Bucket {
    if d in days then days[d] else map[]
  }

  function CoverageOf(telemetry: map<Day, Coverage>, d: Day): Coverage {
    if d in telemetry then telemetry[d] else Coverage(0.0, 0.0)
  }

  // ---------------------------------------------------------------------------
  // What a cycle credits
  // ---------------------------------------------------------------------------

  /** One day's bucket and coverage. */
  datatype DayLog = DayLog(bucket: Bucket, coverage: Option<Coverage>) {
    function Covered(): Coverage {
      if coverage.Some? then coverage.value else Coverage(0.0, 0.0)
    }
  }

  function Credit(stale: bool, c: Card, dt: real): Entry {
    if stale then Entry(dt, 0.0, 0.0, 0.0)
    else Entry(dt, if c.Busy() then dt else 0.0, dt, if c.Wasted() then dt else 0.0)
  }

  function CreditCard(log: DayLog, stale: bool, c: Card, dt: real): DayLog {
    var u, cov := c.Holder(), log.Covered();
    if u == "" then log
    else DayLog(log.bucket[u := EntryOf(log.bucket, u).Plus(Credit(stale, c, dt))],
                Some(if stale then cov.(staleSec := cov.staleSec + dt) else cov.(freshSec := cov.freshSec + dt)))
  }

  function CreditCards(log: DayLog, stale: bool, cards: seq<Card>, dt: real): DayLog {
    if cards == [] then log
    else CreditCard(CreditCards(log, stale, cards[..|cards| - 1], dt), stale, cards[|cards| - 1], dt)
  }

  function CreditNodes(log: DayLog, nodes: seq<Node>, dt: real): DayLog {
    if nodes == [] then log
    else
      var n := nodes[|nodes| - 1];
      CreditCards(CreditNodes(log, nodes[..|nodes| - 1], dt), n.stale, n.cards, dt)
  }

  function LogOf(days: map<Day, Bucket>, telemetry: map<Day, Coverage>, d: Day): DayLog {
    DayLog(BucketOf(days, d), if d in telemetry then Some(telemetry[d]) else None)
  }

  function WithCoverage(telemetry: map<Day, Coverage>, d: Day, log: DayLog): map<Day, Coverage> {
    if log.coverage.Some? then telemetry[d := log.coverage.value] else telemetry
  }

  function Kept<V>(m: map<Day, V>, cutoff: Day): map<Day, V> {
    map d | d in m && d >= cutoff :: m[d]
  }

  /** A cycle that comes too soon after the last one, or too late, credits nothing. */
  predicate Credits(st: State, now: real) {
    st.lastTs.Some? && 0.0 < now - st.lastTs.value <= MAX_GAP
  }

  function Sampled(st: State, nodes: seq<Node>, now: real, day: Day, cutoff: Day): State {
    if !Credits(st, now) then st.(lastTs := Some(now))
    else
      var dt := now - st.lastTs.value;
      var log := CreditNodes(LogOf(st.days, st.telemetry, day), nodes, dt);
      State(Kept(st.days[day := log.bucket], cutoff),
            Kept(st.meta[day := (if day in st.meta then st.meta[day] else 0.0) + dt], cutoff),
            Kept(WithCoverage(st.telemetry, day, log), cutoff), st.sacct, Some(now))
  }

  // ---------------------------------------------------------------------------
  // The credited amounts, in closed form
  // ---------------------------------------------------------------------------

  /** The user the card was allocated to, or else the first one with a process on it. */
  predicate HeldBy(c: Card, u: User) {
    u != "" && (u == c.allocUser || (c.allocUser == "" && u in c.users && u == c.users[0]))
  }

  /** More than 5 percent busy, by a number that could be read. */
  predicate IsBusy(c: Card) {
    c.util.Some? && !(c.util.value <= 5.0)
  }

  /** Idle or parked for ten minutes or longer. */
  predicate IsWasted(c: Card) {
    c.idle >= 600.0 || c.parked >= 600.0
  }

  lemma CardIs(c: Card, u: User)
    ensures u != "" ==> (c.Holder() == u <==> HeldBy(c, u))
    ensures (c.Busy() <==> IsBusy(c)) && (c.Wasted() <==> IsWasted(c))
  {
  }

  /** Whether a card adds to one figure of one user. */
  function Hit(f: Field, stale: bool, c: Card, u: User): nat {
    if !HeldBy(c, u) then 0
    else
      match f
      case Alloc => 1
      case Busy => if !stale && IsBusy(c) then 1 else 0
      case Observed => if !stale then 1 else 0
      case Waste => if !stale && IsWasted(c) then 1 else 0
  }

  function NodeHits(f: Field, n: Node, u: User): nat {
    Total(n.cards, (c: Card) => Hit(f, n.stale, c, u))
  }

  function Hits(f: Field, nodes: seq<Node>, u: User): nat {
    Total(nodes, (n: Node) => NodeHits(f, n, u))
  }

  function Seconds(cards: nat, dt: real): real {
    cards as real * dt
  }

  lemma SecondsAdd(a: nat, b: nat, dt: real)
    ensures Seconds(a + b, dt) == Seconds(a, dt) + Seconds(b, dt)
    ensures Seconds(0, dt) == 0.0 && Seconds(1, dt) == dt
  {
    assert (a + b) as real == a as real + b as real;
  }

  lemma CardCredits(log: DayLog, stale: bool, c: Card, dt: real, u: User, f: Field)
    requires u != ""
    ensures EntryOf(CreditCard(log, stale, c, dt).bucket, u).Get(f)
         == EntryOf(log.bucket, u).Get(f) + Seconds(Hit(f, stale, c, u), dt)
  {
    SecondsAdd(0, 0, dt);
    CardIs(c, u);
    hide Seconds, Card.Holder, Card.Busy, Card.Wasted, HeldBy, IsBusy, IsWasted;
  }

  lemma {:induction false} CardsCredit(log: DayLog, stale: bool, cards: seq<Card>, dt: real, u: User, f: Field)
    requires u != ""
    ensures EntryOf(CreditCards(log, stale, cards, dt).bucket, u).Get(f)
         == EntryOf(log.bucket, u).Get(f) + Seconds(Total(cards, (c: Card) => Hit(f, stale, c, u)), dt)
  {
    hide Seconds, Hit, CreditCard;
    var hit := (c: Card) => Hit(f, stale, c, u);
    if cards == [] {
      SecondsAdd(0, 0, dt);
    } else {
      var k := |cards| - 1;
      CardsCredit(log, stale, cards[..k], dt, u, f);
      CardCredits(CreditCards(log, stale, cards[..k], dt), stale, cards[k], dt, u, f);
      TotalSnoc(cards, k, hit);
      assert cards[..k + 1] == cards;
      SecondsAdd(Total(cards[..k], hit), hit(cards[k]), dt);
    }
  }

  /** A cycle adds to each figure of each user the time since the last cycle,
      once for every card that counts towards it, whatever the order of the
      nodes and cards. */
  lemma {:induction false} NodesCredit(log: DayLog, nodes: seq<Node>, dt: real, u: User, f: Field)
    requires u != ""
    ensures EntryOf(CreditNodes(log, nodes, dt).bucket, u).Get(f)
         == EntryOf(log.bucket, u).Get(f) + Seconds(Hits(f, nodes, u), dt)
  {
    hide Seconds, CreditCards, NodeHits;
    var hits := (n: Node) => NodeHits(f, n, u);
    if nodes == [] {
      SecondsAdd(0, 0, dt);
    } else {
      var k := |nodes| - 1;
      var before := CreditNodes(log, nodes[..k], dt);
      NodesCredit(log, nodes[..k], dt, u, f);
      NodeCredits(before, nodes[k], dt, u, f);
      TotalSnoc(nodes, k, hits);
      assert nodes[..k + 1] == nodes;
      SecondsAdd(Total(nodes[..k], hits), hits(nodes[k]), dt);
    }
  }

  lemma NodeCredits(log: DayLog, n: Node, dt: real, u: User, f: Field)
    requires u != ""
    ensures EntryOf(CreditCards(log, n.stale, n.cards, dt).bucket, u).Get(f)
         == EntryOf(log.bucket, u).Get(f) + Seconds(NodeHits(f, n, u), dt)
  {
    hide Seconds, CreditCards;
    CardsCredit(log, n.stale, n.cards, dt, u, f);
  }

  // ---------------------------------------------------------------------------
  // What every run keeps
  // ---------------------------------------------------------------------------

  ghost function Observed(bucket: Bucket): real {
    Sum(bucket.Keys, (u: User) => EntryOf(bucket, u).observed)
  }

  ghost function Unobserved(bucket: Bucket): real {
    Sum(bucket.Keys, (u: User) => EntryOf(bucket, u).alloc - EntryOf(bucket, u).observed)
  }

  /** One day adds up: every user's figures are in order, and fresh and stale
      GPU-seconds are the users' observed and unobserved allocation. */
  ghost predicate DaySound(bucket: Bucket, cov: Coverage) {
    && (forall u :: u in bucket ==> bucket[u].Sound())
    && cov.freshSec == Observed(bucket)
    && cov.staleSec == Unobserved(bucket)
  }

  predicate NonNegative(sacct: SacctDays) {
    forall d :: d in sacct ==> forall u :: u in sacct[d] ==> sacct[d][u] >= 0.0
  }

  ghost predicate Inv(st: State) {
    && (forall d :: DaySound(BucketOf(st.days, d), CoverageOf(st.telemetry, d)))
    && NonNegative(st.sacct)
  }

  lemma GrowBucket(bucket: Bucket, u: User)
    ensures Observed(bucket[u := EntryOf(bucket, u)]) == Observed(bucket)
    ensures Unobserved(bucket[u := EntryOf(bucket, u)]) == Unobserved(bucket)
  {
    var more := bucket[u := EntryOf(bucket, u)];
    assert more.Keys == bucket.Keys + {u};
    var f := (v: User) => EntryOf(bucket, v).observed;
    var g := (v: User) => EntryOf(bucket, v).alloc - EntryOf(bucket, v).observed;
    SumGrow(bucket.Keys, more.Keys, f);
    SumGrow(bucket.Keys, more.Keys, g);
    SumSame(more.Keys, f, (v: User) => EntryOf(more, v).observed);
    SumSame(more.Keys, g, (v: User) => EntryOf(more, v).alloc - EntryOf(more, v).observed);
  }

  lemma BumpBucket(bucket: Bucket, u: User, c: Entry)
    requires u in bucket
    ensures Observed(bucket[u := bucket[u].Plus(c)]) == Observed(bucket) + c.observed
    ensures Unobserved(bucket[u := bucket[u].Plus(c)]) == Unobserved(bucket) + c.alloc - c.observed
  {
    var more := bucket[u := bucket[u].Plus(c)];
    assert more.Keys == bucket.Keys;
    SumBump(bucket.Keys, (v: User) => EntryOf(bucket, v).observed, (v: User) => EntryOf(more, v).observed, u, c.observed);
    SumBump(bucket.Keys, (v: User) => EntryOf(bucket, v).alloc - EntryOf(bucket, v).observed,
            (v: User) => EntryOf(more, v).alloc - EntryOf(more, v).observed, u, c.alloc - c.observed);
  }

  lemma CreditKeeps(log: DayLog, stale: bool, c: Card, dt: real)
    requires dt > 0.0 && DaySound(log.bucket, log.Covered())
    ensures var log' := CreditCard(log, stale, c, dt); DaySound(log'.bucket, log'.Covered())
    ensures log.coverage.Some? ==> CreditCard(log, stale, c, dt).coverage.Some?
  {
    hide Observed, Unobserved, Card.Holder, Card.Busy, Card.Wasted;
    var u := c.Holder();
    if u != "" {
      var bucket := log.bucket[u := EntryOf(log.bucket, u)];
      GrowBucket(log.bucket, u);
      BumpBucket(bucket, u, Credit(stale, c, dt));
      assert CreditCard(log, stale, c, dt).bucket == bucket[u := bucket[u].Plus(Credit(stale, c, dt))];
    }
  }

  lemma {:induction false} CardsKeep(log: DayLog, stale: bool, cards: seq<Card>, dt: real)
    requires dt > 0.0 && DaySound(log.bucket, log.Covered())
    ensures var log' := CreditCards(log, stale, cards, dt); DaySound(log'.bucket, log'.Covered())
    ensures log.coverage.Some? ==> CreditCards(log, stale, cards, dt).coverage.Some?
  {
    hide DaySound, CreditCard;
    if cards != [] {
      var k := |cards| - 1;
      CardsKeep(log, stale, cards[..k], dt);
      CreditKeeps(CreditCards(log, stale, cards[..k], dt), stale, cards[k], dt);
    }
  }

  lemma {:induction false} NodesKeep(log: DayLog, nodes: seq<Node>, dt: real)
    requires dt > 0.0 && DaySound(log.bucket, log.Covered())
    ensures var log' := CreditNodes(log, nodes, dt); DaySound(log'.bucket, log'.Covered())
    ensures log.coverage.Some? ==> CreditNodes(log, nodes, dt).coverage.Some?
  {
    hide DaySound, CreditCards;
    if nodes != [] {
      var k := |nodes| - 1;
      NodesKeep(log, nodes[..k], dt);
      CardsKeep(CreditNodes(log, nodes[..k], dt), nodes[k].stale, nodes[k].cards, dt);
    }
  }

  lemma EmptyDaySound()
    ensures DaySound(map[], Coverage(0.0, 0.0))
  {
  }

  lemma SampleKeeps(st: State, nodes: seq<Node>, now: real, day: Day, cutoff: Day)
    requires Inv(st)
    ensures Inv(Sampled(st, nodes, now, day, cutoff))
  {
    hide DaySound, CreditNodes, NonNegative;
    if Credits(st, now) {
      var log, st' := LogOf(st.days, st.telemetry, day), Sampled(st, nodes, now, day, cutoff);
      assert DaySound(BucketOf(st.days, day), CoverageOf(st.telemetry, day));
      NodesKeep(log, nodes, now - st.lastTs.value);
      EmptyDaySound();
      forall d ensures DaySound(BucketOf(st'.days, d), CoverageOf(st'.telemetry, d)) {
        assert DaySound(BucketOf(st.days, d), CoverageOf(st.telemetry, d));
      }
    }
  }

  /** What happens to the history: sampling cycles, each of which may prune, and
      backfills. */
  datatype Event =
    | Cycle(nodes: seq<Node>, now: real, day: Day, cutoff: Day)
    | Backfill(sacct: SacctDays)

  function Step(st: State, e: Event): State {
    match e
    case Cycle(nodes, now, day, cutoff) => Sampled(st, nodes, now, day, cutoff)
    case Backfill(sacct) => st.(sacct := sacct)
  }

  function Run(events: seq<Event>): State {
    if events == [] then State(map[], map[], map[], map[], None)
    else Step(Run(events[..|events| - 1]), events[|events| - 1])
  }

  /** After any run of cycles and backfills every day adds up. */
  lemma {:induction false} RunIsSound(events: seq<Event>)
    requires forall e :: e in events && e.Backfill? ==> NonNegative(e.sacct)
    ensures Inv(Run(events))
  {
    hide DaySound, Sampled;
    if events == [] {
      EmptyDaySound();
    } else {
      var k := |events| - 1;
      RunIsSound(events[..k]);
      assert events[k] in events;
      if events[k].Cycle? {
        SampleKeeps(Run(events[..k]), events[k].nodes, events[k].now, events[k].day, events[k].cutoff);
      }
    }
  }

  lemma {:induction false} ExpectedIsNonNegative(cal: Sacct.Calendar, rows: seq<Sacct.Row>, now: real, cutoff: Day, d: Day, u: User)
    requires Sacct.RowsNormal(cal, rows, now)
    ensures Sacct.Expected(cal, rows, now, cutoff, d, u) >= 0.0
    decreases |rows|
  {
    hide Sacct.Segments, Sacct.DayTime, Sacct.RowNormal;
    if rows != [] {
      ExpectedIsNonNegative(cal, rows[..|rows| - 1], now, cutoff, d, u);
      var r := rows[|rows| - 1];
      JobTimeIsNonNegative(cal, r, now, d);
      TimesNonNegative(r.gpus, Sacct.DayTime(Sacct.Segments(cal, r, now), d));
    }
  }

  lemma TimesNonNegative(g: nat, x: real)
    requires x >= 0.0
    ensures Sacct.GpuTime(g, x) >= 0.0
  {
  }

  lemma JobTimeIsNonNegative(cal: Sacct.Calendar, r: Sacct.Row, now: real, d: Day)
    requires Sacct.RowNormal(cal, r, now)
    ensures Sacct.DayTime(Sacct.Segments(cal, r, now), d) >= 0.0
  {
    if r.Counted(now) {
      Sacct.SplitPartitions(cal, r.start.value, r.End(now));
      Sacct.DayTimeIsNonNegative(Sacct.Split(cal, r.start.value, r.End(now)), r.start.value, r.End(now), d);
    }
  }

  /** What the database dump is turned into never has a negative amount. */
  lemma BackfillIsNonNegative(cal: Sacct.Calendar, rows: seq<Sacct.Row>, now: real, cutoff: Day, days: SacctDays)
    requires Sacct.RowsNormal(cal, rows, now) && Sacct.Backfilled(cal, rows, now, cutoff, days)
    ensures NonNegative(days)
  {
    hide Sacct.Expected, Sacct.RowsNormal, Sacct.GrandTotal, Sacct.KeptGpuTime;
    forall d, u | d in days && u in days[d] ensures days[d][u] >= 0.0 {
      assert days[d][u] == Sacct.Amount(days, d, u);
      ExpectedIsNonNegative(cal, rows, now, cutoff, d, u);
    }
  }

  // ---------------------------------------------------------------------------
  // The collector's own loops
  // ---------------------------------------------------------------------------

  class Collector {
    var days: map<Day, Bucket>
    var meta: map<Day, real>
    var telemetry: map<Day, Coverage>
    var sacct: SacctDays
    var lastTs: Option<real>

    constructor ()
      ensures Value() == Run([])
    {
      days, meta, telemetry, sacct, lastTs := map[], map[], map[], map[], None;
    }

    function Value(): State
      reads this
    {
      State(days, meta, telemetry, sacct, lastTs)
    }

    function Log(d: Day): DayLog
      reads this
    {
      LogOf(days, telemetry, d)
    }

    /** The body of the inner loop, for one card. */
    method CreditOne(day: Day, stale: bool, g: Card, dt: real)
      requires day in days
      modifies this`days, this`telemetry
      ensures Log(day) == CreditCard(old(Log(day)), stale, g, dt)
      ensures days == old(days)[day := Log(day).bucket]
      ensures telemetry == WithCoverage(old(telemetry), day, Log(day))
    {
      var user := if g.allocUser != "" then g.allocUser else if g.users != [] then g.users[0] else "";
      if user == "" {
        return;
      }
      var u := EntryOf(days[day], user);
      u := u.(alloc := u.alloc + dt);
      var coverage := CoverageOf(telemetry, day);
      telemetry := telemetry[day := if stale then coverage.(staleSec := coverage.staleSec + dt)
                                    else coverage.(freshSec := coverage.freshSec + dt)];
      if !stale {
        u := u.(observed := u.observed + dt);
        if g.util.Some? && g.util.value > 5.0 {
          u := u.(busy := u.busy + dt);
        }
        if (if g.idle > g.parked then g.idle else g.parked) >= WASTE_MIN_SEC {
          u := u.(waste := u.waste + dt);
        }
      }
      days := days[day := days[day][user := u]];
    }

    method CreditNode(day: Day, n: Node, dt: real)
      requires day in days
      modifies this`days, this`telemetry
      ensures Log(day) == CreditCards(old(Log(day)), n.stale, n.cards, dt)
      ensures days == old(days)[day := Log(day).bucket]
      ensures telemetry == WithCoverage(old(telemetry), day, Log(day))
    {
      hide CreditCard;
      for j := 0 to |n.cards|
        invariant day in days
        invariant Log(day) == CreditCards(old(Log(day)), n.stale, n.cards[..j], dt)
        invariant days == old(days)[day := Log(day).bucket]
        invariant telemetry == WithCoverage(old(telemetry), day, Log(day))
      {
        CreditOne(day, n.stale, n.cards[j], dt);
        assert n.cards[..j + 1][..j] == n.cards[..j];
      }
      assert n.cards[..|n.cards|] == n.cards;
    }

    method CreditEach(day: Day, nodes: seq<Node>, dt: real)
      requires day in days
      modifies this`days, this`telemetry
      ensures Log(day) == CreditNodes(old(Log(day)), nodes, dt)
      ensures days == old(days)[day := Log(day).bucket]
      ensures telemetry == WithCoverage(old(telemetry), day, Log(day))
    {
      hide CreditCards;
      for i := 0 to |nodes|
        invariant day in days
        invariant Log(day) == CreditNodes(old(Log(day)), nodes[..i], dt)
        invariant days == old(days)[day := Log(day).bucket]
        invariant telemetry == WithCoverage(old(telemetry), day, Log(day))
      {
        CreditNode(day, nodes[i], dt);
        assert nodes[..i + 1][..i] == nodes[..i];
      }
      assert nodes[..|nodes|] == nodes;
    }

    /** `_accumulate_usage`: one sampling cycle. */
    method AccumulateUsage(nodes: seq<Node>, now: real, day: Day, cutoff: Day)
      modifies this
      ensures Value() == Sampled(old(Value()), nodes, now, day, cutoff)
    {
      hide CreditNodes, Kept, WithCoverage;
      var prev := lastTs;
      lastTs := Some(now);
      if prev.None? {
        return;
      }
      var dt := now - prev.value;
      if !(0.0 < dt <= MAX_GAP) {
        return;
      }
      meta := meta[day := (if day in meta then meta[day] else 0.0) + dt];
      days := days[day := BucketOf(days, day)];
      assert Log(day) == old(Log(day));
      CreditEach(day, nodes, dt);
      assert days == old(days)[day := Log(day).bucket];
      days := DropBefore(days, cutoff);
      meta := DropBefore(meta, cutoff);
      telemetry := DropBefore(telemetry, cutoff);
    }

    /** `_sacct_backfill`: the scheduler's own numbers replace the previous ones. */
    method SacctBackfill(cal: Sacct.Calendar, rows: seq<Sacct.Row>, now: real, cutoff: Day)
      requires Sacct.RowsNormal(cal, rows, now)
      modifies this`sacct
      ensures Sacct.Backfilled(cal, rows, now, cutoff, sacct) && NonNegative(sacct)
      ensures Value() == Step(old(Value()), Backfill(sacct))
    {
      hide Sacct.Backfilled, NonNegative, Sacct.RowsNormal;
      var fromRows := Sacct.SacctBackfill(cal, rows, now, cutoff);
      BackfillIsNonNegative(cal, rows, now, cutoff, fromRows);
      sacct := fromRows;
    }
  }

  /** `for d in [d for d in m if d < cutoff]: del m[d]` */
  method DropBefore<V>(m: map<Day, V>, cutoff: Day) returns (m': map<Day, V>)
    ensures m' == Kept(m, cutoff)
  {
    m' := m;
    var gone := set d | d in m && d < cutoff;
    while gone != {}
      invariant forall d :: d in gone ==> d in m' && d < cutoff
      invariant forall d :: d in m' <==> d in m && (d >= cutoff || d in gone)
      invariant forall d :: d in m' ==> m'[d] == m[d]
      decreases gone
    {
      var d :| d in gone;
      gone := gone - {d};
      m' := m' - {d};
    }
    assert forall d :: d in m' <==> d in Kept(m, cutoff);
  }

  // ---------------------------------------------------------------------------
  // The merge
  // ---------------------------------------------------------------------------

  function SacctOf(sacct: SacctDays, d: Day): map<User, real> {
    if d in sacct then sacct[d] else map[]
  }

  function DayUsers(days: map<Day, Bucket>, sacct: SacctDays, d: Day): set<User> {
    BucketOf(days, d).Keys + SacctOf(sacct, d).Keys
  }

  /** The merged figures of one user-day: the larger allocation, and busy,
      observed and wasted time from sampling alone. */
  function Merged(days: map<Day, Bucket>, sacct: SacctDays, d: Day, u: User): Entry {
    var s := EntryOf(BucketOf(days, d), u);
    var a := if u in SacctOf(sacct, d) then SacctOf(sacct, d)[u] else 0.0;
    s.(alloc := if a > s.alloc then a else s.alloc)
  }

  ghost function UserTotal(days: map<Day, Bucket>, sacct: SacctDays, ds: set<Day>, u: User, f: Field): real {
    Sum(ds, (d: Day) => Merged(days, sacct, d, u).Get(f))
  }

  ghost function DayTotal(days: map<Day, Bucket>, sacct: SacctDays, us: set<User>, d: Day, f: Field): real {
    Sum(us, (u: User) => Merged(days, sacct, d, u).Get(f))
  }

  lemma UserTotalStep(days: map<Day, Bucket>, sacct: SacctDays, ds: set<Day>, d: Day, u: User, f: Field)
    requires d !in ds
    ensures UserTotal(days, sacct, ds + {d}, u, f) == UserTotal(days, sacct, ds, u, f) + Merged(days, sacct, d, u).Get(f)
  {
    SumTake(ds + {d}, (e: Day) => Merged(days, sacct, e, u).Get(f), d);
    assert ds + {d} - {d} == ds;
  }

  lemma DayTotalStep(days: map<Day, Bucket>, sacct: SacctDays, us: set<User>, d: Day, u: User, f: Field)
    requires u !in us
    ensures DayTotal(days, sacct, us + {u}, d, f) == DayTotal(days, sacct, us, d, f) + Merged(days, sacct, d, u).Get(f)
  {
    SumTake(us + {u}, (v: User) => Merged(days, sacct, d, v).Get(f), u);
    assert us + {u} - {u} == us;
  }

  /** What a day's loop adds to the user rows, for the users in `us`. */
  ghost predicate DayAdded(days: map<Day, Bucket>, sacct: SacctDays, d: Day, us: set<User>, before: Bucket, after: Bucket) {
    && after.Keys == before.Keys + us
    && forall u :: EntryOf(after, u) ==
         if u in us then EntryOf(before, u).Plus(Merged(days, sacct, d, u)) else EntryOf(before, u)
  }

  lemma DayAddedStep(days: map<Day, Bucket>, sacct: SacctDays, d: Day, us: set<User>, before: Bucket, after: Bucket, u: User)
    requires DayAdded(days, sacct, d, us, before, after) && u !in us
    ensures DayAdded(days, sacct, d, us + {u}, before, after[u := EntryOf(after, u).Plus(Merged(days, sacct, d, u))])
  {
    hide Merged, Entry.Plus;
  }

  /** A user-day as a usage file holds it: older files have no observed time. */
  datatype FileEntry = FileEntry(alloc: real, busy: real, observed: Option<real>, waste: real)

  type FileBucket = map<User, FileEntry>

  /** Without its own figure, all sampled allocation counts as observed. */
  function Read(e: FileEntry): Entry {
    Entry(e.alloc, e.busy, if e.observed.Some? then e.observed.value else e.alloc, e.waste)
  }

  function ReadBucket(b: FileBucket): Bucket {
    map u | u in b :: Read(b[u])
  }

  function ReadDays(raw: map<Day, FileBucket>): map<Day, Bucket> {
    map d | d in raw :: ReadBucket(raw[d])
  }

  /** What the collector writes for the history it keeps. */
  function Written(days: map<Day, Bucket>): map<Day, FileBucket> {
    map d | d in days :: map u | u in days[d] :: FileEntry(days[d][u].alloc, days[d][u].busy, Some(days[d][u].observed), days[d][u].waste)
  }

  lemma ReadWritten(days: map<Day, Bucket>)
    ensures ReadDays(Written(days)) == days
  {
    forall d | d in days ensures ReadDays(Written(days))[d] == days[d] {
    }
  }

  function FileBucketOf(raw: map<Day, FileBucket>, d: Day): FileBucket {
    if d in raw then raw[d] else map[]
  }

  lemma UsersRead(raw: map<Day, FileBucket>, sacct: SacctDays, d: Day)
    ensures DayUsers(ReadDays(raw), sacct, d) == FileBucketOf(raw, d).Keys + SacctOf(sacct, d).Keys
    ensures forall u :: u in DayUsers(ReadDays(raw), sacct, d) <==> (d in raw && u in raw[d]) || (d in sacct && u in sacct[d])
  {
  }

  /** One user-day of the merge, from the file and the scheduler's numbers: the
      larger allocation, and the rest from the file alone. */
  lemma MergedRead(raw: map<Day, FileBucket>, sacct: SacctDays, d: Day, u: User)
    ensures var s := if d in raw && u in raw[d] then raw[d][u] else FileEntry(0.0, 0.0, None, 0.0);
      var au := if d in sacct && u in sacct[d] then sacct[d][u] else 0.0;
      Merged(ReadDays(raw), sacct, d, u)
      == Entry(if au > s.alloc then au else s.alloc, s.busy, if s.observed.Some? then s.observed.value else s.alloc, s.waste)
  {
  }

  /** The inner loop: one day's users. */
  method MergeDay(raw: map<Day, FileBucket>, sacct: SacctDays, d: Day, users: Bucket)
    returns (users': Bucket, alloc: real, busy: real)
    ensures var days := ReadDays(raw);
      && DayAdded(days, sacct, d, DayUsers(days, sacct, d), users, users')
      && alloc == DayTotal(days, sacct, DayUsers(days, sacct, d), d, Alloc)
      && busy == DayTotal(days, sacct, DayUsers(days, sacct, d), d, Busy)
  {
    hide DayAdded, DayTotal, ReadDays, DayUsers, Merged;
    ghost var days := ReadDays(raw);
    var sUsers := FileBucketOf(raw, d);
    var aUsers := SacctOf(sacct, d);
    UsersRead(raw, sacct, d);
    users', alloc, busy := users, 0.0, 0.0;
    var rest := sUsers.Keys + aUsers.Keys;
    ghost var seen: set<User> := {};
    DayStarts(days, sacct, d, users);
    while rest != {}
      invariant seen + rest == DayUsers(days, sacct, d) && seen !! rest
      invariant DayAdded(days, sacct, d, seen, users, users')
      invariant alloc == DayTotal(days, sacct, seen, d, Alloc)
      invariant busy == DayTotal(days, sacct, seen, d, Busy)
      decreases rest
    {
      var user :| user in rest;
      rest := rest - {user};
      DayAddedStep(days, sacct, d, seen, users, users', user);
      DayTotalStep(days, sacct, seen, d, user, Alloc);
      DayTotalStep(days, sacct, seen, d, user, Busy);
      var su := if user in sUsers then sUsers[user] else FileEntry(0.0, 0.0, None, 0.0);
      var observed := if su.observed.Some? then su.observed.value else su.alloc;
      MergedRead(raw, sacct, d, user);
      var au := if user in aUsers then aUsers[user] else 0.0;
      var merged := if au > su.alloc then au else su.alloc;
      var t := EntryOf(users', user);
      users' := users'[user := Entry(t.alloc + merged, t.busy + su.busy, t.observed + observed, t.waste + su.waste)];
      alloc := alloc + merged;
      busy := busy + su.busy;
      seen := seen + {user};
    }
    assert seen == DayUsers(days, sacct, d);
  }

  lemma DayStarts(days: map<Day, Bucket>, sacct: SacctDays, d: Day, users: Bucket)
    ensures DayAdded(days, sacct, d, {}, users, users)
    ensures DayTotal(days, sacct, {}, d, Alloc) == 0.0 && DayTotal(days, sacct, {}, d, Busy) == 0.0
  {
  }

  datatype DayRow = DayRow(alloc: real, busy: real)

  /** What the merge returns for the days `ds`. */
  ghost predicate MergeOf(days: map<Day, Bucket>, sacct: SacctDays, ds: set<Day>, users: Bucket, daily: map<Day, DayRow>) {
    && (forall u :: u in users <==> exists d :: d in ds && u in DayUsers(days, sacct, d))
    && (forall u, f :: EntryOf(users, u).Get(f) == UserTotal(days, sacct, ds, u, f))
    && daily.Keys == ds
    && (forall d :: d in ds ==> daily[d] == DayRow(DayTotal(days, sacct, DayUsers(days, sacct, d), d, Alloc),
                                                   DayTotal(days, sacct, DayUsers(days, sacct, d), d, Busy)))
  }

  lemma AbsentIsNothing(days: map<Day, Bucket>, sacct: SacctDays, d: Day, u: User)
    requires u !in DayUsers(days, sacct, d)
    ensures Merged(days, sacct, d, u) == NOTHING
  {
  }

  lemma MergeStep(days: map<Day, Bucket>, sacct: SacctDays, ds: set<Day>, d: Day, users: Bucket, users': Bucket,
                  daily: map<Day, DayRow>)
    requires d !in ds && MergeOf(days, sacct, ds, users, daily)
    requires DayAdded(days, sacct, d, DayUsers(days, sacct, d), users, users')
    ensures MergeOf(days, sacct, ds + {d}, users',
                    daily[d := DayRow(DayTotal(days, sacct, DayUsers(days, sacct, d), d, Alloc),
                                      DayTotal(days, sacct, DayUsers(days, sacct, d), d, Busy))])
  {
    hide DayTotal, UserTotal, Merged, DayUsers;
    forall u, f ensures EntryOf(users', u).Get(f) == UserTotal(days, sacct, ds + {d}, u, f) {
      UserTotalStep(days, sacct, ds, d, u, f);
      if u !in DayUsers(days, sacct, d) {
        AbsentIsNothing(days, sacct, d, u);
      }
      assert EntryOf(users, u).Get(f) == UserTotal(days, sacct, ds, u, f);
    }
    forall u ensures u in users' <==> exists e :: e in ds + {d} && u in DayUsers(days, sacct, e) {
      if u in users {
        var e :| e in ds && u in DayUsers(days, sacct, e);
        assert e in ds + {d};
      }
      if u in DayUsers(days, sacct, d) {
        assert d in ds + {d};
      }
    }
  }

  function KeptDays(days: map<Day, Bucket>, sacct: SacctDays, keep: Day -> bool): set<Day> {
    set d | d in days.Keys + sacct.Keys && keep(d)
  }

  /** The days in the window that either source knows. */
  lemma KeptDaysAre(raw: map<Day, FileBucket>, sacct: SacctDays, keep: Day -> bool, d: Day)
    ensures d in KeptDays(ReadDays(raw), sacct, keep) <==> keep(d) && (d in raw || d in sacct)
  {
  }

  lemma NothingMerged(raw: map<Day, FileBucket>, sacct: SacctDays)
    ensures ReadDays(raw).Keys == raw.Keys && MergeOf(ReadDays(raw), sacct, {}, map[], map[])
  {
  }

  /** `merge_usage_window` */
  method MergeUsageWindow(raw: map<Day, FileBucket>, sacct: SacctDays, keep: Day -> bool)
    returns (users: Bucket, daily: map<Day, DayRow>)
    ensures MergeOf(ReadDays(raw), sacct, KeptDays(ReadDays(raw), sacct, keep), users, daily)
  {
    hide MergeOf, ReadDays;
    ghost var days := ReadDays(raw);
    NothingMerged(raw, sacct);
    users, daily := map[], map[];
    var rest: set<Day> := raw.Keys + sacct.Keys;
    ghost var merged: set<Day> := {};
    while rest != {}
      invariant rest <= days.Keys + sacct.Keys && merged == KeptDays(days, sacct, keep) - rest
      invariant MergeOf(days, sacct, merged, users, daily)
      decreases rest
    {
      var day := AnyOf(rest);
      rest := rest - {day};
      if keep(day) {
        var users', alloc, busy := MergeDay(raw, sacct, day, users);
        MergeStep(days, sacct, merged, day, users, users', daily);
        users := users';
        daily := daily[day := DayRow(alloc, busy)];
        merged := merged + {day};
      }
    }
    assert merged == KeptDays(days, sacct, keep);
  }

  lemma MergedIsSound(days: map<Day, Bucket>, sacct: SacctDays, d: Day, u: User)
    requires NonNegative(sacct) && forall v :: v in BucketOf(days, d) ==> BucketOf(days, d)[v].Sound()
    ensures Merged(days, sacct, d, u).Sound()
  {
  }

  lemma TotalsInOrder(days: map<Day, Bucket>, sacct: SacctDays, ds: set<Day>, u: User, f: Field, g: Field)
    requires forall d :: d in ds ==> Merged(days, sacct, d, u).Get(f) <= Merged(days, sacct, d, u).Get(g)
    ensures UserTotal(days, sacct, ds, u, f) <= UserTotal(days, sacct, ds, u, g)
  {
    SumLe(ds, (d: Day) => Merged(days, sacct, d, u).Get(f), (d: Day) => Merged(days, sacct, d, u).Get(g));
  }

  lemma TotalIsNonNegative(days: map<Day, Bucket>, sacct: SacctDays, ds: set<Day>, u: User, f: Field)
    requires forall d :: d in ds ==> 0.0 <= Merged(days, sacct, d, u).Get(f)
    ensures 0.0 <= UserTotal(days, sacct, ds, u, f)
  {
    SumZero(ds, (d: Day) => 0.0);
    SumLe(ds, (d: Day) => 0.0, (d: Day) => Merged(days, sacct, d, u).Get(f));
  }

  /** From a history that adds up, every user's row is in order: busy and waste
      within sampled, sampled within allocated. */
  lemma RowsAreSound(st: State, ds: set<Day>, users: Bucket, daily: map<Day, DayRow>)
    requires Inv(st) && MergeOf(st.days, st.sacct, ds, users, daily)
    ensures forall u :: u in users ==> users[u].Sound()
  {
    hide Observed, Unobserved, UserTotal, DayTotal, Merged;
    forall u | u in users ensures users[u].Sound() {
      forall d ensures Merged(st.days, st.sacct, d, u).Sound() {
        assert DaySound(BucketOf(st.days, d), CoverageOf(st.telemetry, d));
        MergedIsSound(st.days, st.sacct, d, u);
      }
      TotalIsNonNegative(st.days, st.sacct, ds, u, Busy);
      TotalIsNonNegative(st.days, st.sacct, ds, u, Waste);
      TotalsInOrder(st.days, st.sacct, ds, u, Busy, Field.Observed);
      TotalsInOrder(st.days, st.sacct, ds, u, Waste, Field.Observed);
      TotalsInOrder(st.days, st.sacct, ds, u, Field.Observed, Alloc);
      forall f: Field ensures users[u].Get(f) == UserTotal(st.days, st.sacct, ds, u, f) {
        assert EntryOf(users, u) == users[u];
      }
      assert users[u].Get(Busy) == users[u].busy && users[u].Get(Waste) == users[u].waste;
      assert users[u].Get(Field.Observed) == users[u].observed && users[u].Get(Alloc) == users[u].alloc;
    }
  }

  lemma DayOverAll(days: map<Day, Bucket>, sacct: SacctDays, us: set<User>, d: Day, f: Field)
    requires DayUsers(days, sacct, d) <= us
    ensures DayTotal(days, sacct, DayUsers(days, sacct, d), d, f) == DayTotal(days, sacct, us, d, f)
  {
    hide Merged;
    forall u | u in us - DayUsers(days, sacct, d) ensures Merged(days, sacct, d, u).Get(f) == 0.0 {
      AbsentIsNothing(days, sacct, d, u);
    }
    SumGrow(DayUsers(days, sacct, d), us, (u: User) => Merged(days, sacct, d, u).Get(f));
  }

  /** Summing a figure over users or over days gives the same. */
  lemma TotalsAgree(days: map<Day, Bucket>, sacct: SacctDays, ds: set<Day>, users: Bucket, daily: map<Day, DayRow>, f: Field)
    requires MergeOf(days, sacct, ds, users, daily)
    ensures Sum(users.Keys, (u: User) => EntryOf(users, u).Get(f))
         == Sum(ds, (d: Day) => DayTotal(days, sacct, DayUsers(days, sacct, d), d, f))
  {
    hide Merged, DayUsers;
    var us := users.Keys;
    var userRow := (u: User) => (d: Day) => Merged(days, sacct, d, u).Get(f);
    var dayRow := (d: Day) => (u: User) => Merged(days, sacct, d, u).Get(f);
    forall u | u in us ensures EntryOf(users, u).Get(f) == Sum(ds, userRow(u)) {
      SumSame(ds, (d: Day) => Merged(days, sacct, d, u).Get(f), userRow(u));
    }
    forall d | d in ds ensures DayTotal(days, sacct, DayUsers(days, sacct, d), d, f) == Sum(us, dayRow(d)) {
      DayOverAll(days, sacct, us, d, f);
      SumSame(us, (u: User) => Merged(days, sacct, d, u).Get(f), dayRow(d));
    }
    SumExchange(us, ds, userRow, dayRow, (u: User) => EntryOf(users, u).Get(f),
                (d: Day) => DayTotal(days, sacct, DayUsers(days, sacct, d), d, f));
  }

  /** The per-user rows and the per-day rows of one merge have the same totals. */
  lemma MergeConserves(days: map<Day, Bucket>, sacct: SacctDays, ds: set<Day>, users: Bucket, daily: map<Day, DayRow>)
    requires MergeOf(days, sacct, ds, users, daily)
    ensures Sum(users.Keys, (u: User) => EntryOf(users, u).Get(Alloc))
         == Sum(ds, (d: Day) => if d in daily then daily[d].alloc else 0.0)
    ensures Sum(users.Keys, (u: User) => EntryOf(users, u).Get(Busy))
         == Sum(ds, (d: Day) => if d in daily then daily[d].busy else 0.0)
  {
    hide DayTotal, DayUsers, UserTotal;
    TotalsAgree(days, sacct, ds, users, daily, Alloc);
    TotalsAgree(days, sacct, ds, users, daily, Busy);
    SumSame(ds, (d: Day) => DayTotal(days, sacct, DayUsers(days, sacct, d), d, Alloc),
            (d: Day) => if d in daily then daily[d].alloc else 0.0);
    SumSame(ds, (d: Day) => DayTotal(days, sacct, DayUsers(days, sacct, d), d, Busy),
            (d: Day) => if d in daily then daily[d].busy else 0.0);
  }

  /** Both results for every run and every window over what the run leaves in the file. */
  lemma EveryWindowIsSound(events: seq<Event>, keep: Day -> bool, users: Bucket, daily: map<Day, DayRow>)
    requires forall e :: e in events && e.Backfill? ==> NonNegative(e.sacct)
    requires var st := Run(events); var days := ReadDays(Written(st.days));
      MergeOf(days, st.sacct, KeptDays(days, st.sacct, keep), users, daily)
    ensures forall u :: u in users ==> users[u].Sound()
    ensures Sum(users.Keys, (u: User) => EntryOf(users, u).Get(Alloc))
         == Sum(daily.Keys, (d: Day) => if d in daily then daily[d].alloc else 0.0)
    ensures Sum(users.Keys, (u: User) => EntryOf(users, u).Get(Busy))
         == Sum(daily.Keys, (d: Day) => if d in daily then daily[d].busy else 0.0)
  {
    hide MergeOf, Inv, Run, ReadDays, Written;
    var st := Run(events);
    ReadWritten(st.days);
    RunIsSound(events);
    RowsAreSound(st, KeptDays(st.days, st.sacct, keep), users, daily);
    MergeConserves(st.days, st.sacct, KeptDays(st.days, st.sacct, keep), users, daily);
    MergedDays(st.days, st.sacct, KeptDays(st.days, st.sacct, keep), users, daily);
  }

  lemma MergedDays(days: map<Day, Bucket>, sacct: SacctDays, ds: set<Day>, users: Bucket, daily: map<Day, DayRow>)
    requires MergeOf(days, sacct, ds, users, daily)
    ensures daily.Keys == ds
  {
  }

  // ---------------------------------------------------------------------------
  // Busy and wasted time together
  // ---------------------------------------------------------------------------

  /** The time of the last cycle. */
  function LastCycle(events: seq<Event>): Option<real> {
    if events == [] then None
    else if events[|events| - 1].Cycle? then Some(events[|events| - 1].now)
    else LastCycle(events[..|events| - 1])
  }

  /** What a cycle at `now` credits per card: 0 when it comes too soon or too late. */
  function Credited(events: seq<Event>, now: real): (dt: real)
    ensures 0.0 <= dt <= MAX_GAP
  {
    var last := LastCycle(events);
    if last.Some? && 0.0 < now - last.value <= MAX_GAP then now - last.value else 0.0
  }

  /** A sum over the cycles of a run: `gain` is what a cycle adds to user-day
      (`d`, `u`) per credited time; a cycle that credits also prunes. */
  function OverCycles(events: seq<Event>, d: Day, gain: (seq<Node>, real) -> real): real {
    if events == [] then 0.0
    else
      var rest, e := events[..|events| - 1], events[|events| - 1];
      var before := OverCycles(rest, d, gain);
      if e.Backfill? || Credited(rest, e.now) == 0.0 then before
      else if d < e.cutoff then 0.0
      else if d == e.day then before + gain(e.nodes, Credited(rest, e.now))
      else before
  }

  function FieldGain(f: Field, u: User): (seq<Node>, real) -> real {
    (nodes: seq<Node>, dt: real) => Seconds(Hits(f, nodes, u), dt)
  }

  lemma {:induction false} RunsLastCycle(events: seq<Event>)
    ensures Run(events).lastTs == LastCycle(events)
  {
    if events != [] {
      RunsLastCycle(events[..|events| - 1]);
    }
  }

  lemma SampleAdds(st: State, nodes: seq<Node>, now: real, day: Day, cutoff: Day, d: Day, u: User, f: Field)
    requires u != ""
    ensures EntryOf(BucketOf(Sampled(st, nodes, now, day, cutoff).days, d), u).Get(f) ==
      var e := EntryOf(BucketOf(st.days, d), u).Get(f);
      if !Credits(st, now) then e
      else if d < cutoff then 0.0
      else if d == day then e + Seconds(Hits(f, nodes, u), now - st.lastTs.value)
      else e
  {
    hide CreditNodes, Hits, Seconds;
    if Credits(st, now) {
      NodesCredit(LogOf(st.days, st.telemetry, day), nodes, now - st.lastTs.value, u, f);
    }
  }

  /** After any run each figure of each user-day still kept is the sum over the
      cycles of the credited time, once for every card that counts towards it. */
  lemma {:induction false} RunFigures(events: seq<Event>, d: Day, u: User, f: Field)
    requires u != ""
    ensures EntryOf(BucketOf(Run(events).days, d), u).Get(f) == OverCycles(events, d, FieldGain(f, u))
  {
    hide Sampled, Hits, Seconds;
    if events != [] {
      var rest, e := events[..|events| - 1], events[|events| - 1];
      RunFigures(rest, d, u, f);
      RunsLastCycle(rest);
      if e.Cycle? {
        SampleAdds(Run(rest), e.nodes, e.now, e.day, e.cutoff, d, u, f);
      }
    }
  }

  lemma SampleAddsTime(st: State, nodes: seq<Node>, now: real, day: Day, cutoff: Day, d: Day)
    ensures TimeOf(Sampled(st, nodes, now, day, cutoff).meta, d) ==
      var e := TimeOf(st.meta, d);
      if !Credits(st, now) then e
      else if d < cutoff then 0.0
      else if d == day then e + (now - st.lastTs.value)
      else e
  {
    hide CreditNodes;
  }

  function TimeOf(meta: map<Day, real>, d: Day): real {
    if d in meta then meta[d] else 0.0
  }

  /** And a day's sampled time is the sum of the credited times of its cycles. */
  lemma {:induction false} RunTime(events: seq<Event>, d: Day)
    ensures TimeOf(Run(events).meta, d) == OverCycles(events, d, (nodes: seq<Node>, dt: real) => dt)
  {
    hide Sampled, TimeOf;
    if events == [] {
      NoTime(d);
    } else {
      var rest, e := events[..|events| - 1], events[|events| - 1];
      RunTime(rest, d);
      RunsLastCycle(rest);
      if e.Cycle? {
        SampleAddsTime(Run(rest), e.nodes, e.now, e.day, e.cutoff, d);
      }
    }
  }

  lemma NoTime(d: Day)
    ensures TimeOf(map[], d) == 0.0
  {
  }

  /** Fresh cards of a user that count twice, and such that count not at all. */
  datatype Twofold = Both | Neither

  function TwofoldHit(t: Twofold, stale: bool, c: Card, u: User): nat {
    if !HeldBy(c, u) || stale then 0
    else
      match t
      case Both => if IsBusy(c) && IsWasted(c) then 1 else 0
      case Neither => if !IsBusy(c) && !IsWasted(c) then 1 else 0
  }

  function NodeTwofold(t: Twofold, n: Node, u: User): nat {
    Total(n.cards, (c: Card) => TwofoldHit(t, n.stale, c, u))
  }

  function Twofolds(t: Twofold, nodes: seq<Node>, u: User): nat {
    Total(nodes, (n: Node) => NodeTwofold(t, n, u))
  }

  lemma NodeBalance(n: Node, u: User)
    ensures NodeHits(Busy, n, u) + NodeHits(Waste, n, u) + NodeTwofold(Neither, n, u)
         == NodeHits(Field.Observed, n, u) + NodeTwofold(Both, n, u)
  {
    hide HeldBy, IsBusy, IsWasted;
    TotalBalance(n.cards, (c: Card) => Hit(Busy, n.stale, c, u), (c: Card) => Hit(Waste, n.stale, c, u),
                 (c: Card) => TwofoldHit(Neither, n.stale, c, u),
                 (c: Card) => Hit(Field.Observed, n.stale, c, u), (c: Card) => TwofoldHit(Both, n.stale, c, u));
  }

  lemma CycleBalance(nodes: seq<Node>, u: User)
    ensures Hits(Busy, nodes, u) + Hits(Waste, nodes, u) + Twofolds(Neither, nodes, u)
         == Hits(Field.Observed, nodes, u) + Twofolds(Both, nodes, u)
  {
    hide NodeHits, NodeTwofold;
    forall n ensures NodeHits(Busy, n, u) + NodeHits(Waste, n, u) + NodeTwofold(Neither, n, u)
                  == NodeHits(Field.Observed, n, u) + NodeTwofold(Both, n, u) {
      NodeBalance(n, u);
    }
    TotalBalance(nodes, (n: Node) => NodeHits(Busy, n, u), (n: Node) => NodeHits(Waste, n, u),
                 (n: Node) => NodeTwofold(Neither, n, u),
                 (n: Node) => NodeHits(Field.Observed, n, u), (n: Node) => NodeTwofold(Both, n, u));
  }

  function ExcessGain(u: User): (seq<Node>, real) -> real {
    (nodes: seq<Node>, dt: real) => Seconds(Twofolds(Both, nodes, u), dt) - Seconds(Twofolds(Neither, nodes, u), dt)
  }

  /** Over the cycles, the credited time of cards both busy and wasted less that
      of cards neither. */
  function Excess(events: seq<Event>, d: Day, u: User): real {
    OverCycles(events, d, ExcessGain(u))
  }

  lemma GainBalance(nodes: seq<Node>, dt: real, u: User)
    ensures FieldGain(Busy, u)(nodes, dt) + FieldGain(Waste, u)(nodes, dt) - FieldGain(Field.Observed, u)(nodes, dt)
         == ExcessGain(u)(nodes, dt)
  {
    hide Seconds, Hits, Twofolds;
    CycleBalance(nodes, u);
    SecondsAdd(Hits(Busy, nodes, u), Hits(Waste, nodes, u), dt);
    SecondsAdd(Hits(Busy, nodes, u) + Hits(Waste, nodes, u), Twofolds(Neither, nodes, u), dt);
    SecondsAdd(Hits(Field.Observed, nodes, u), Twofolds(Both, nodes, u), dt);
  }

  lemma {:induction false} CyclesBalance(events: seq<Event>, d: Day, u: User)
    ensures OverCycles(events, d, FieldGain(Busy, u)) + OverCycles(events, d, FieldGain(Waste, u))
          - OverCycles(events, d, FieldGain(Field.Observed, u)) == Excess(events, d, u)
  {
    hide FieldGain, ExcessGain;
    if events != [] {
      var rest, e := events[..|events| - 1], events[|events| - 1];
      CyclesBalance(rest, d, u);
      if e.Cycle? {
        GainBalance(e.nodes, Credited(rest, e.now), u);
      }
    }
  }

  /** Busy and wasted time fit into the observed time if and only if, over the
      cycles still kept, cards both busy and wasted do not outweigh cards neither. */
  lemma BusyPlusWaste(events: seq<Event>, d: Day, u: User)
    requires u != ""
    ensures var e := EntryOf(BucketOf(Run(events).days, d), u);
      && e.busy + e.waste - e.observed == Excess(events, d, u)
      && (e.busy + e.waste <= e.observed <==> Excess(events, d, u) <= 0.0)
  {
    hide Run, OverCycles, Excess;
    RunFigures(events, d, u, Busy);
    RunFigures(events, d, u, Waste);
    RunFigures(events, d, u, Field.Observed);
    CyclesBalance(events, d, u);
  }

  /** By the guards of the timers: a fresh card is busy and wasted at once if and
      only if it computes while its job has had no process on it for long enough;
      parked memory never counts on a busy card. */
  lemma BusyAndWastedIff(history: seq<WasteTimers.Observation>, key: WasteTimers.Key, g: WasteTimers.Gpu, now: real, c: Card)
    requires var (idle, parked) := WasteTimers.Report(WasteTimers.After(history), WasteTimers.Fresh(key, g, now));
      c.util == g.util && c.idle == idle as real && c.parked == parked as real
    ensures c.Busy() && c.Wasted() <==> c.util.Some? && c.util.value > 5.0 && c.idle >= WASTE_MIN_SEC
  {
    hide WasteTimers.After;
    if c.Busy() {
      assert WasteTimers.ParkedLabel(g).None?;
    }
  }

  /** A card can be busy and wasted at once, so the two do not fit into the
      observed time together. */
  lemma BusyAndWasteOverlap(dt: real)
    requires 0.0 < dt <= MAX_GAP
    ensures exists events: seq<Event>, d: Day, u: User ::
      var e := EntryOf(BucketOf(Run(events).days, d), u); e.busy + e.waste > e.observed
  {
    var card := Card("u", [], Some(50.0), 700.0, 0.0);
    var first := Cycle([], 0.0, 0, 0);
    var second := Cycle([Node(false, [card])], dt, 0, 0);
    var events := [first, second];
    assert events[..1] == [first] && [first][..0] == [];
    assert Run([]) == State(map[], map[], map[], map[], None);
    assert Run([first]) == State(map[], map[], map[], map[], Some(0.0));
    assert second.nodes[..0] == [] && second.nodes[0].cards[..0] == [];
    var log := DayLog(map[], None);
    assert CreditCards(log, false, [card], dt) == CreditCard(log, false, card, dt);
    assert CreditNodes(log, second.nodes, dt) == CreditCards(CreditNodes(log, [], dt), false, [card], dt);
    assert Run(events) == Sampled(Run([first]), second.nodes, dt, 0, 0);
    var e := EntryOf(BucketOf(Run(events).days, 0), "u");
    assert e == Entry(dt, dt, dt, dt);
  }
}
