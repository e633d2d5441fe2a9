/**
Admission of background node polls: one scan per collection cycle walks the
roster from a rotating cursor and starts polls while fewer than the cap are in
flight.  A scan is one step; polls complete between scans.
*/
module Polling {

  type Name = string

  /** `_poll_cursor` and `_inflight`. */
  datatype State = State(cursor: nat, inflight: set<Name>)

  /** What a scan sees: nodes whose agent pushed a fresh payload, and nodes whose interval is over. */
  datatype View = View(payload: set<Name>, due: set<Name>) {
    predicate Wants(n: Name) {
      n !in payload && n in due
    }
  }

  ghost predicate IsRoster(roster: seq<Name>) {
    roster != [] && forall i, j :: 0 <= i < j < |roster| ==> roster[i] != roster[j]
  }

  function Start(roster: seq<Name>, s: State): (i: nat)
    ensures roster != [] ==> i < |roster|
  {
    if roster == [] then 0 else s.cursor % |roster|
  }

  /** The order in which a scan visits the nodes. */
  function Order(roster: seq<Name>, s: State): seq<Name> {
    roster[Start(roster, s)..] + roster[..Start(roster, s)]
  }

  /** The offsets in visiting order at which the scan starts a poll, from `k` on. */
  function Admissions(order: seq<Name>, k: nat, inflight: set<Name>, cap: nat, v: View): (offs: seq<nat>)
    requires k <= |order|
    ensures forall o :: o in offs ==> k <= o < |order|
    decreases |order| - k
  {
    if k == |order| then []
    else if v.Wants(order[k]) && order[k] !in inflight && |inflight| < cap
    then [k] + Admissions(order, k + 1, inflight + {order[k]}, cap, v)
    else Admissions(order, k + 1, inflight, cap, v)
  }

  /** The nodes at those offsets. */
  function Names(order: seq<Name>, k: nat, inflight: set<Name>, cap: nat, v: View): (names: seq<Name>)
    requires k <= |order|
    decreases |order| - k
  {
    if k == |order| then []
    else if v.Wants(order[k]) && order[k] !in inflight && |inflight| < cap
    then [order[k]] + Names(order, k + 1, inflight + {order[k]}, cap, v)
    else Names(order, k + 1, inflight, cap, v)
  }

  lemma {:induction false} NamesAtOffsets(order: seq<Name>, k: nat, inflight: set<Name>, cap: nat, v: View)
    requires k <= |order|
    ensures var offs, names := Admissions(order, k, inflight, cap, v), Names(order, k, inflight, cap, v);
      |names| == |offs| && forall i :: 0 <= i < |offs| ==> offs[i] < |order| && names[i] == order[offs[i]]
    decreases |order| - k
  {
    if k < |order| {
      var take := v.Wants(order[k]) && order[k] !in inflight && |inflight| < cap;
      NamesAtOffsets(order, k + 1, if take then inflight + {order[k]} else inflight, cap, v);
    }
  }

  /** The polls a scan starts. */
  function Admitted(roster: seq<Name>, cap: nat, s: State, v: View): seq<Name> {
    Names(Order(roster, s), 0, s.inflight, cap, v)
  }

  function AsSet(names: seq<Name>): set<Name> {
    set n | n in names
  }

  function AfterScan(roster: seq<Name>, cap: nat, s: State, v: View): State {
    var order, start := Order(roster, s), Start(roster, s);
    var offs := Admissions(order, 0, s.inflight, cap, v);
    State(if offs == [] then start else start + offs[|offs| - 1] + 1, s.inflight + AsSet(Admitted(roster, cap, s, v)))
  }

  // ---------------------------------------------------------------------------
  // The code
  // ---------------------------------------------------------------------------

  class Collector {
    var cursor: nat
    var inflight: set<Name>
    const cap: nat

    ghost function Now(): State
      reads this
    {
      State(cursor, inflight)
    }

    constructor (cap: nat)
      ensures Now() == State(0, {}) && this.cap == cap
    {
      cursor, inflight, this.cap := 0, {}, cap;
    }

    /** Start a background poll unless one is running or the cap is reached. */
    method PollNodeBg(name: Name) returns (started: bool)
      modifies `inflight
      ensures started == (name !in old(inflight) && |old(inflight)| < cap)
      ensures inflight == if started then old(inflight) + {name} else old(inflight)
    {
      if name in inflight || |inflight| >= cap {
        return false;
      }
      inflight := inflight + {name};
      return true;
    }

    /** A poll ended. */
    method Complete(name: Name)
      modifies `inflight
      ensures inflight == old(inflight) - {name}
    {
      inflight := inflight - {name};
    }

    /** One node of the scan: a pushed payload needs no poll. */
    method Visit(name: Name, v: View) returns (started: bool)
      modifies `inflight
      ensures started == (v.Wants(name) && name !in old(inflight) && |old(inflight)| < cap)
      ensures inflight == if started then old(inflight) + {name} else old(inflight)
    {
      if name in v.payload {
        return false;
      }
      if name in v.due {
        started := PollNodeBg(name);
      } else {
        started := false;
      }
    }

    /** The cursor loop of one collection cycle. */
    method Scan(roster: seq<Name>, v: View) returns (started: seq<Name>)
      modifies this
      ensures Now() == AfterScan(roster, cap, old(Now()), v)
      ensures started == Admitted(roster, cap, old(Now()), v)
    {
      ghost var s := Now();
      var start := if roster == [] then 0 else cursor % |roster|;
      var order := roster[start..] + roster[..start];
      cursor := start;
      started := [];
      WalkIsScan(roster, cap, s, v);
      assert start == Start(roster, s) && order == Order(roster, s);
      hide AfterScan, Admitted, Order, Start, Walk;
      for k := 0 to |order|
        invariant Walk(order, start, k, Now(), started, cap, v) == (AfterScan(roster, cap, s, v), Admitted(roster, cap, s, v))
      {
        WalkStep(order, start, k, Now(), started, cap, v);
        var ok := Visit(order[k], v);
        if ok {
          cursor := start + k + 1;
          started := started + [order[k]];
        }
      }
    }

    /** Collection cycles and ended polls, in any order: the object runs as `Run`
        does, so the cap holds for it throughout. */
    method Serve(roster: seq<Name>, events: seq<Event>)
      modifies this
      ensures Now() == Run(roster, cap, old(Now()), events)
      ensures |old(inflight)| <= cap ==> |inflight| <= cap
    {
      hide AfterScan, Admitted;
      if |inflight| <= cap {
        CapHolds(roster, cap, Now(), events);
      }
      assert events[0..] == events;
      for i := 0 to |events|
        invariant Run(roster, cap, Now(), events[i..]) == Run(roster, cap, old(Now()), events)
      {
        assert events[i..][0] == events[i] && events[i..][1..] == events[i + 1..];
        match events[i]
        case Scanned(v) => var _ := Scan(roster, v);
        case Completed(n) => Complete(n);
      }
    }
  }

  /** A visit starts a poll. */
  predicate Takes(n: Name, pool: set<Name>, cap: nat, v: View) {
    v.Wants(n) && n !in pool && |pool| < cap
  }

  /** The scan loop with its variables as arguments. */
  function Walk(order: seq<Name>, start: nat, k: nat, s: State, started: seq<Name>, cap: nat, v: View): (State, seq<Name>)
    requires k <= |order|
    decreases |order| - k
  {
    if k == |order| then (s, started)
    else if Takes(order[k], s.inflight, cap, v)
    then Walk(order, start, k + 1, State(start + k + 1, s.inflight + {order[k]}), started + [order[k]], cap, v)
    else Walk(order, start, k + 1, s, started, cap, v)
  }

  lemma WalkStep(order: seq<Name>, start: nat, k: nat, s: State, started: seq<Name>, cap: nat, v: View)
    requires k < |order|
    ensures Walk(order, start, k, s, started, cap, v) ==
      if Takes(order[k], s.inflight, cap, v)
      then Walk(order, start, k + 1, State(start + k + 1, s.inflight + {order[k]}), started + [order[k]], cap, v)
      else Walk(order, start, k + 1, s, started, cap, v)
  {
    hide View.Wants;
  }

  lemma AsSetCons(base: set<Name>, n: Name, names: seq<Name>)
    ensures base + AsSet([n] + names) == base + {n} + AsSet(names)
  {
  }

  lemma AsSetNothing(base: set<Name>)
    ensures base + AsSet([]) == base
  {
  }

  lemma {:induction false} WalkAdmits(order: seq<Name>, start: nat, k: nat, s: State, started: seq<Name>, cap: nat, v: View)
    requires k <= |order|
    ensures var offs, names := Admissions(order, k, s.inflight, cap, v), Names(order, k, s.inflight, cap, v);
      Walk(order, start, k, s, started, cap, v) ==
        (State(if offs == [] then s.cursor else start + offs[|offs| - 1] + 1, s.inflight + AsSet(names)), started + names)
    decreases |order| - k
  {
    AsSetNothing(s.inflight);
    hide AsSet;
    if k == |order| {
      assert started + [] == started;
    } else if v.Wants(order[k]) && order[k] !in s.inflight && |s.inflight| < cap {
      var more := s.inflight + {order[k]};
      WalkAdmits(order, start, k + 1, State(start + k + 1, more), started + [order[k]], cap, v);
      var names := Names(order, k + 1, more, cap, v);
      AsSetCons(s.inflight, order[k], names);
      assert started + [order[k]] + names == started + ([order[k]] + names);
    } else {
      WalkAdmits(order, start, k + 1, s, started, cap, v);
    }
  }

  lemma WalkIsScan(roster: seq<Name>, cap: nat, s: State, v: View)
    ensures Walk(Order(roster, s), Start(roster, s), 0, State(Start(roster, s), s.inflight), [], cap, v)
            == (AfterScan(roster, cap, s, v), Admitted(roster, cap, s, v))
  {
    WalkAdmits(Order(roster, s), Start(roster, s), 0, State(Start(roster, s), s.inflight), [], cap, v);
    hide Walk, Admissions, Names, Order, AsSet;
    assert [] + Admitted(roster, cap, s, v) == Admitted(roster, cap, s, v);
  }

  // ---------------------------------------------------------------------------
  // The cap, and no node twice
  // ---------------------------------------------------------------------------

  lemma {:induction false} NamesBounded(order: seq<Name>, k: nat, inflight: set<Name>, cap: nat, v: View)
    requires k <= |order| && |inflight| <= cap
    ensures var names := Names(order, k, inflight, cap, v);
      && |inflight| + |names| <= cap
      && (forall i :: 0 <= i < |names| ==> names[i] !in inflight && v.Wants(names[i]))
      && (forall i, j :: 0 <= i < j < |names| ==> names[i] != names[j])
    decreases |order| - k
  {
    if k < |order| {
      var take := v.Wants(order[k]) && order[k] !in inflight && |inflight| < cap;
      NamesBounded(order, k + 1, if take then inflight + {order[k]} else inflight, cap, v);
    }
  }

  lemma OrderPermutes(roster: seq<Name>, s: State)
    requires IsRoster(roster)
    ensures IsRoster(Order(roster, s)) && |Order(roster, s)| == |roster|
  {
  }

  lemma {:induction false} NamesCount(names: seq<Name>, base: set<Name>)
    ensures |base + AsSet(names)| <= |base| + |names|
  {
    if names == [] {
      assert base + AsSet(names) == base;
    } else {
      NamesCount(names[..|names| - 1], base);
      var last := names[|names| - 1];
      assert names == names[..|names| - 1] + [last];
      assert base + AsSet(names) == base + AsSet(names[..|names| - 1]) + {last};
    }
  }

  /** A scan never exceeds the cap, and starts only polls of wanted nodes that
      were not in flight, each once. */
  lemma ScanRespectsCap(roster: seq<Name>, cap: nat, s: State, v: View)
    requires |s.inflight| <= cap
    ensures var names := Admitted(roster, cap, s, v);
      && |AfterScan(roster, cap, s, v).inflight| <= cap
      && (forall i :: 0 <= i < |names| ==>
            names[i] !in s.inflight && v.Wants(names[i]) && names[i] !in v.payload && names[i] in v.due)
      && (forall i, j :: 0 <= i < j < |names| ==> names[i] != names[j])
  {
    NamesBounded(Order(roster, s), 0, s.inflight, cap, v);
    NamesCount(Admitted(roster, cap, s, v), s.inflight);
  }

  // ---------------------------------------------------------------------------
  // The bypass bound
  // ---------------------------------------------------------------------------

  function IndexOf(roster: seq<Name>, n: Name): (i: nat)
    requires n in roster
    ensures i < |roster| && roster[i] == n
  {
    if roster[0] == n then 0 else 1 + IndexOf(roster[1..], n)
  }

  /** How far ahead of the cursor the node lies in visiting order. */
  function Distance(roster: seq<Name>, s: State, n: Name): (d: nat)
    requires n in roster
    ensures d < |roster|
  {
    var i, start := IndexOf(roster, n), Start(roster, s);
    if i >= start then i - start else i + |roster| - start
  }

  lemma OrderAtDistance(roster: seq<Name>, s: State, n: Name)
    requires IsRoster(roster) && n in roster
    ensures |Order(roster, s)| == |roster| && Order(roster, s)[Distance(roster, s, n)] == n
    ensures forall k :: 0 <= k < |roster| && Order(roster, s)[k] == n ==> k == Distance(roster, s, n)
  {
    OrderPermutes(roster, s);
  }

  lemma ModSmall(a: nat, n: nat)
    requires 0 < n && a < 2 * n
    ensures a % n == if a < n then a else a - n
  {
    if a >= n {
      assert a == n + (a - n);
    }
  }

  /** Moving the cursor to just past offset `o` brings a later node that much closer. */
  lemma CursorAdvances(roster: seq<Name>, s: State, o: nat, inflight: set<Name>, n: Name)
    requires IsRoster(roster) && n in roster && o < Distance(roster, s, n)
    ensures var s' := State(Start(roster, s) + o + 1, inflight);
      Distance(roster, s', n) == Distance(roster, s, n) - o - 1
  {
    ModSmall(Start(roster, s) + o + 1, |roster|);
  }

  lemma CursorStays(roster: seq<Name>, s: State, inflight: set<Name>, n: Name)
    requires n in roster
    ensures Distance(roster, State(Start(roster, s), inflight), n) == Distance(roster, s, n)
  {
    ModSmall(Start(roster, s), |roster|);
  }

  /** A wanted idle node that the scan passes over found the cap reached, so
      everything the scan admitted came before it. */
  lemma {:induction false} PassedOver(order: seq<Name>, k: nat, inflight: set<Name>, cap: nat, v: View, d: nat)
    requires k <= d < |order| && v.Wants(order[d]) && order[d] !in inflight
    requires forall i :: k <= i < d ==> order[i] != order[d]
    ensures var offs := Admissions(order, k, inflight, cap, v);
      d in offs || (forall o :: o in offs ==> o < d)
    decreases |order| - k
  {
    var take := v.Wants(order[k]) && order[k] !in inflight && |inflight| < cap;
    if k < d {
      var more := if take then inflight + {order[k]} else inflight;
      PassedOver(order, k + 1, more, cap, v, d);
      var rest := Admissions(order, k + 1, more, cap, v);
      assert Admissions(order, k, inflight, cap, v) == if take then [k] + rest else rest;
    } else if take {
      assert Admissions(order, k, inflight, cap, v)[0] == d;
    } else {
      NothingAboveCap(order, k, inflight, cap, v);
    }
  }

  lemma {:induction false} NothingAboveCap(order: seq<Name>, k: nat, inflight: set<Name>, cap: nat, v: View)
    requires k <= |order| && |inflight| >= cap
    ensures Admissions(order, k, inflight, cap, v) == []
    decreases |order| - k
  {
    if k < |order| {
      NothingAboveCap(order, k + 1, inflight, cap, v);
    }
  }

  /** The node wants a poll in this scan and has none. */
  ghost predicate Eligible(s: State, v: View, n: Name) {
    v.Wants(n) && n !in s.inflight
  }

  lemma PassingBrings(roster: seq<Name>, cap: nat, s: State, v: View, n: Name)
    requires IsRoster(roster) && n in roster
    requires var offs := Admissions(Order(roster, s), 0, s.inflight, cap, v);
      forall o :: o in offs ==> o < Distance(roster, s, n)
    ensures |Admitted(roster, cap, s, v)| + Distance(roster, AfterScan(roster, cap, s, v), n) <= Distance(roster, s, n)
  {
    var order := Order(roster, s);
    var offs, after := Admissions(order, 0, s.inflight, cap, v), AfterScan(roster, cap, s, v);
    assert after.cursor == Start(roster, s) + (if offs == [] then 0 else offs[|offs| - 1] + 1);
    hide Admissions, Names, Order, Distance, Start, AsSet, IsRoster, AfterScan;
    NamesAtOffsets(order, 0, s.inflight, cap, v);
    OffsetsIncrease(order, 0, s.inflight, cap, v);
    if offs != [] {
      assert |offs| <= offs[|offs| - 1] + 1;
      assert offs[|offs| - 1] in offs;
      CursorAdvances(roster, s, offs[|offs| - 1], after.inflight, n);
    } else {
      CursorStays(roster, s, after.inflight, n);
    }
  }

  /** In one scan an eligible node at distance `d` is either started, after at
      most `d` others, or comes closer by at least as many places as nodes were
      started; and if a slot was free, some node was started. */
  lemma ScanProgress(roster: seq<Name>, cap: nat, s: State, v: View, n: Name)
    requires IsRoster(roster) && n in roster && Eligible(s, v, n)
    ensures var names, s', d := Admitted(roster, cap, s, v), AfterScan(roster, cap, s, v), Distance(roster, s, n);
      && (n in names ==> Before(names, n) <= d)
      && (n !in names ==> |names| + Distance(roster, s', n) <= d)
      && (|s.inflight| < cap ==> names != [])
  {
    var order, d := Order(roster, s), Distance(roster, s, n);
    OrderAtDistance(roster, s, n);
    OrderPermutes(roster, s);
    PassedOver(order, 0, s.inflight, cap, v, d);
    NamesAtOffsets(order, 0, s.inflight, cap, v);
    OffsetsIncrease(order, 0, s.inflight, cap, v);
    if |s.inflight| < cap {
      FirstIsStarted(order, 0, s.inflight, cap, v, d);
    }
    var offs, names := Admissions(order, 0, s.inflight, cap, v), Admitted(roster, cap, s, v);
    hide Admissions, Names, Order, Distance, AfterScan;
    if d in offs {
      var p :| 0 <= p < |offs| && offs[p] == d;
      BeforeAtMost(names, n, p);
    } else {
      PassingBrings(roster, cap, s, v, n);
    }
    if n in names {
      var i :| 0 <= i < |names| && names[i] == n;
      assert offs[i] == d && offs[i] in offs;
    }
  }

  /** The i-th offset lies at least `i` places after `k`. */
  ghost predicate Spread(offs: seq<nat>, k: nat) {
    forall i :: 0 <= i < |offs| ==> offs[i] >= k + i
  }

  lemma {:induction false} OffsetsIncrease(order: seq<Name>, k: nat, inflight: set<Name>, cap: nat, v: View)
    requires k <= |order|
    ensures Spread(Admissions(order, k, inflight, cap, v), k)
    decreases |order| - k
  {
    if k < |order| {
      var take := v.Wants(order[k]) && order[k] !in inflight && |inflight| < cap;
      var more := if take then inflight + {order[k]} else inflight;
      OffsetsIncrease(order, k + 1, more, cap, v);
      var offs, rest := Admissions(order, k, inflight, cap, v), Admissions(order, k + 1, more, cap, v);
      assert offs == if take then [k] + rest else rest;
      forall i | 0 <= i < |offs| ensures offs[i] >= k + i {
        if take && i > 0 {
          assert offs[i] == rest[i - 1];
        }
      }
    }
  }

  lemma {:induction false} FirstIsStarted(order: seq<Name>, k: nat, inflight: set<Name>, cap: nat, v: View, d: nat)
    requires k <= d < |order| && v.Wants(order[d]) && order[d] !in inflight && |inflight| < cap
    ensures Admissions(order, k, inflight, cap, v) != []
    decreases |order| - k
  {
    if k < d && !(v.Wants(order[k]) && order[k] !in inflight) {
      FirstIsStarted(order, k + 1, inflight, cap, v, d);
    }
  }

  // ---------------------------------------------------------------------------
  // Whole runs
  // ---------------------------------------------------------------------------

  datatype Event = Scanned(view: View) | Completed(name: Name)

  function Step(roster: seq<Name>, cap: nat, s: State, e: Event): State {
    match e
    case Scanned(v) => AfterScan(roster, cap, s, v)
    case Completed(n) => s.(inflight := s.inflight - {n})
  }

  function Run(roster: seq<Name>, cap: nat, s: State, events: seq<Event>): State
    decreases |events|
  {
    if events == [] then s else Run(roster, cap, Step(roster, cap, s, events[0]), events[1..])
  }

  function StartedBy(roster: seq<Name>, cap: nat, s: State, e: Event): seq<Name> {
    if e.Scanned? then Admitted(roster, cap, s, e.view) else []
  }

  /** All polls started during the events, in order. */
  function Started(roster: seq<Name>, cap: nat, s: State, events: seq<Event>): seq<Name>
    decreases |events|
  {
    if events == [] then []
    else StartedBy(roster, cap, s, events[0]) + Started(roster, cap, Step(roster, cap, s, events[0]), events[1..])
  }

  /** The node is eligible in every scan of the run until one starts it. */
  ghost predicate KeepsWaiting(roster: seq<Name>, cap: nat, s: State, events: seq<Event>, n: Name)
    decreases |events|
  {
    events == []
    || (&& (events[0].Scanned? ==> Eligible(s, events[0].view, n))
        && (n in StartedBy(roster, cap, s, events[0])
            || KeepsWaiting(roster, cap, Step(roster, cap, s, events[0]), events[1..], n)))
  }

  /** How many of `names` come before the first `n`. */
  function Before(names: seq<Name>, n: Name): nat {
    if names == [] || names[0] == n then 0 else 1 + Before(names[1..], n)
  }

  lemma {:induction false} BeforeSplit(a: seq<Name>, b: seq<Name>, n: Name)
    ensures Before(a + b, n) == if n in a then Before(a, n) else |a| + Before(b, n)
  {
    if a == [] {
      assert a + b == b;
    } else {
      assert (a + b)[1..] == a[1..] + b;
      BeforeSplit(a[1..], b, n);
    }
  }

  lemma {:induction false} BeforeAtMost(names: seq<Name>, n: Name, p: nat)
    requires p < |names| && names[p] == n
    ensures Before(names, n) <= p
  {
    if p > 0 && names[0] != n {
      BeforeAtMost(names[1..], n, p - 1);
    }
  }

  /** A node that stays eligible is overtaken by at most as many polls of other
      nodes as its distance from the cursor at the outset. */
  lemma {:induction false} BypassBound(roster: seq<Name>, cap: nat, s: State, events: seq<Event>, n: Name)
    requires IsRoster(roster) && n in roster && KeepsWaiting(roster, cap, s, events, n)
    ensures Before(Started(roster, cap, s, events), n) <= Distance(roster, s, n)
    decreases |events|
  {
    if events != [] {
      var e, names := events[0], StartedBy(roster, cap, s, events[0]);
      var s' := Step(roster, cap, s, e);
      BeforeSplit(names, Started(roster, cap, s', events[1..]), n);
      if e.Scanned? {
        ScanProgress(roster, cap, s, e.view, n);
      }
      if n !in names {
        BypassBound(roster, cap, s', events[1..], n);
      }
    }
  }

  /** Every scan of the run begins with a free slot. */
  ghost predicate SlotsFree(roster: seq<Name>, cap: nat, s: State, events: seq<Event>)
    decreases |events|
  {
    events == []
    || ((events[0].Scanned? ==> |s.inflight| < cap) && SlotsFree(roster, cap, Step(roster, cap, s, events[0]), events[1..]))
  }

  function Scans(events: seq<Event>): nat {
    if events == [] then 0 else (if events[0].Scanned? then 1 else 0) + Scans(events[1..])
  }

  /** If every scan finds a free slot, more scans than the distance suffice. */
  lemma {:induction false} PolledEventually(roster: seq<Name>, cap: nat, s: State, events: seq<Event>, n: Name)
    requires IsRoster(roster) && n in roster && KeepsWaiting(roster, cap, s, events, n)
    requires SlotsFree(roster, cap, s, events) && Scans(events) > Distance(roster, s, n)
    ensures n in Started(roster, cap, s, events)
    decreases |events|
  {
    var e := events[0];
    var s' := Step(roster, cap, s, e);
    if e.Scanned? {
      ScanProgress(roster, cap, s, e.view, n);
    }
    if n !in StartedBy(roster, cap, s, e) {
      PolledEventually(roster, cap, s', events[1..], n);
    }
  }

  /** The number of polls in flight stays within the cap in every run. */
  lemma {:induction false} CapHolds(roster: seq<Name>, cap: nat, s: State, events: seq<Event>)
    requires |s.inflight| <= cap
    ensures |Run(roster, cap, s, events).inflight| <= cap
    decreases |events|
  {
    if events != [] {
      if events[0].Scanned? {
        ScanRespectsCap(roster, cap, s, events[0].view);
      } else {
        RemoveShrinks(s.inflight, events[0].name);
      }
      CapHolds(roster, cap, Step(roster, cap, s, events[0]), events[1..]);
    }
  }

  lemma RemoveShrinks(s: set<Name>, n: Name)
    ensures |s - {n}| <= |s|
  {
    if n !in s {
      assert s - {n} == s;
    }
  }
}
