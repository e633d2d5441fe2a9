/**
Poll admission when polls end while a scan is under way: exactly when a scan
passes a waiting node by, and what that costs it over a run.
*/
module LivePolling {
  import opened Polling

  /** Which polls end just before the visit at each offset. */
  type Ends = nat -> set<Name>

  // ---------------------------------------------------------------------------
  // One scan
  // ---------------------------------------------------------------------------

  function Then(n: Name, pool: set<Name>, cap: nat, v: View): set<Name> {
    if Takes(n, pool, cap, v) then pool + {n} else pool
  }

  /** The scan loop with its variables as arguments. */
  function LiveWalk(order: seq<Name>, start: nat, k: nat, s: State, started: seq<Name>, cap: nat, v: View, ends: Ends): (State, seq<Name>)
    requires k <= |order|
    decreases |order| - k
  {
    if k == |order| then (s, started)
    else
      var pool := s.inflight - ends(k);
      if Takes(order[k], pool, cap, v)
      then LiveWalk(order, start, k + 1, State(start + k + 1, pool + {order[k]}), started + [order[k]], cap, v, ends)
      else LiveWalk(order, start, k + 1, State(s.cursor, pool), started, cap, v, ends)
  }

  function LiveScan(roster: seq<Name>, cap: nat, s: State, v: View, ends: Ends): (State, seq<Name>) {
    LiveWalk(Order(roster, s), Start(roster, s), 0, State(Start(roster, s), s.inflight), [], cap, v, ends)
  }

  /** The loop itself, with the polls that end meanwhile taken out as they do. */
  method ScanWithEnds(roster: seq<Name>, cap: nat, s: State, v: View, ends: Ends) returns (s': State, started: seq<Name>)
    ensures (s', started) == LiveScan(roster, cap, s, v, ends)
  {
    hide LiveWalk;
    var start := if roster == [] then 0 else s.cursor % |roster|;
    var order := roster[start..] + roster[..start];
    var cursor, inflight := start, s.inflight;
    started := [];
    for offset := 0 to |order|
      invariant LiveScan(roster, cap, s, v, ends) == LiveWalk(order, start, offset, State(cursor, inflight), started, cap, v, ends)
    {
      LiveStep(order, start, offset, State(cursor, inflight), started, cap, v, ends);
      inflight := inflight - ends(offset);
      var name := order[offset];
      if v.Wants(name) && name !in inflight && |inflight| < cap {
        inflight := inflight + {name};
        cursor := start + offset + 1;
        started := started + [name];
      }
    }
    WalksEnd(order, start, |order|, State(cursor, inflight), started, cap, v, ends);
    return State(cursor, inflight), started;
  }

  lemma LiveStep(order: seq<Name>, start: nat, k: nat, s: State, started: seq<Name>, cap: nat, v: View, ends: Ends)
    requires k < |order|
    ensures var pool := s.inflight - ends(k);
      LiveWalk(order, start, k, s, started, cap, v, ends) ==
        if Takes(order[k], pool, cap, v)
        then LiveWalk(order, start, k + 1, State(start + k + 1, pool + {order[k]}), started + [order[k]], cap, v, ends)
        else LiveWalk(order, start, k + 1, State(s.cursor, pool), started, cap, v, ends)
  {
    hide Takes;
  }

  lemma WalksEnd(order: seq<Name>, start: nat, k: nat, s: State, started: seq<Name>, cap: nat, v: View, ends: Ends)
    requires k == |order|
    ensures LiveWalk(order, start, k, s, started, cap, v, ends) == (s, started)
    ensures Walk(order, start, k, s, started, cap, v) == (s, started)
  {
  }

  lemma MinusNothing(s: set<Name>, none: set<Name>)
    requires none == {}
    ensures s - none == s
  {
  }

  /** When no poll ends meanwhile, it is the scan taken as one step. */
  lemma {:induction false} NoneEnds(order: seq<Name>, start: nat, k: nat, s: State, started: seq<Name>, cap: nat, v: View, ends: Ends)
    requires k <= |order| && forall i :: ends(i) == {}
    ensures LiveWalk(order, start, k, s, started, cap, v, ends) == Walk(order, start, k, s, started, cap, v)
    decreases |order| - k
  {
    hide LiveWalk, Walk, Takes;
    if k == |order| {
      WalksEnd(order, start, k, s, started, cap, v, ends);
    } else {
      MinusNothing(s.inflight, ends(k));
      LiveStep(order, start, k, s, started, cap, v, ends);
      WalkStep(order, start, k, s, started, cap, v);
      if Takes(order[k], s.inflight, cap, v) {
        NoneEnds(order, start, k + 1, State(start + k + 1, s.inflight + {order[k]}), started + [order[k]], cap, v, ends);
      } else {
        NoneEnds(order, start, k + 1, s, started, cap, v, ends);
      }
    }
  }

  // ---------------------------------------------------------------------------
  // The pool a node meets, and the offsets admitted
  // ---------------------------------------------------------------------------

  /** The polls in flight when the scan comes to offset `d`, before those in `ends(d)` end. */
  function InFlight(order: seq<Name>, k: nat, inflight: set<Name>, cap: nat, v: View, ends: Ends, d: nat): set<Name>
    requires k <= d <= |order|
    decreases d - k
  {
    if k == d then inflight
    else InFlight(order, k + 1, Then(order[k], inflight - ends(k), cap, v), cap, v, ends, d)
  }

  /** The polls in flight when the node at offset `d` is looked at. */
  function Pool(order: seq<Name>, k: nat, inflight: set<Name>, cap: nat, v: View, ends: Ends, d: nat): set<Name>
    requires k <= d < |order|
  {
    InFlight(order, k, inflight, cap, v, ends, d) - ends(d)
  }

  predicate Within(offs: seq<nat>, k: nat, n: nat) {
    forall i :: 0 <= i < |offs| ==> k <= offs[i] < n
  }

  /** The offsets at which the scan starts a poll, from `k` on. */
  function Offsets(order: seq<Name>, k: nat, inflight: set<Name>, cap: nat, v: View, ends: Ends): (offs: seq<nat>)
    requires k <= |order|
    ensures Within(offs, k, |order|)
    decreases |order| - k
  {
    if k == |order| then []
    else
      var pool := inflight - ends(k);
      (if Takes(order[k], pool, cap, v) then [k] else [])
      + Offsets(order, k + 1, Then(order[k], pool, cap, v), cap, v, ends)
  }

  function NamesAt(order: seq<Name>, offs: seq<nat>): (names: seq<Name>)
    requires Within(offs, 0, |order|)
    ensures |names| == |offs| && forall i :: 0 <= i < |offs| ==> names[i] == order[offs[i]]
  {
    if offs == [] then []
    else
      [order[offs[0]]] + NamesAt(order, offs[1..])
  }

  lemma OffsetsStep(order: seq<Name>, k: nat, inflight: set<Name>, cap: nat, v: View, ends: Ends)
    requires k < |order|
    ensures var pool := inflight - ends(k);
      Offsets(order, k, inflight, cap, v, ends) ==
        (if Takes(order[k], pool, cap, v) then [k] else [])
        + Offsets(order, k + 1, Then(order[k], pool, cap, v), cap, v, ends)
  {
    hide Takes, Then;
  }

  /** What the loop returns, in these terms. */
  function Result(order: seq<Name>, start: nat, k: nat, s: State, started: seq<Name>, cap: nat, v: View, ends: Ends): (State, seq<Name>)
    requires k <= |order|
  {
    var offs := Offsets(order, k, s.inflight, cap, v, ends);
    (State(if offs == [] then s.cursor else start + offs[|offs| - 1] + 1, InFlight(order, k, s.inflight, cap, v, ends, |order|)),
     started + NamesAt(order, offs))
  }

  lemma ResultStep(order: seq<Name>, start: nat, k: nat, s: State, started: seq<Name>, cap: nat, v: View, ends: Ends)
    requires k < |order|
    ensures var pool := s.inflight - ends(k);
      Result(order, start, k, s, started, cap, v, ends) ==
        if Takes(order[k], pool, cap, v)
        then Result(order, start, k + 1, State(start + k + 1, pool + {order[k]}), started + [order[k]], cap, v, ends)
        else Result(order, start, k + 1, State(s.cursor, pool), started, cap, v, ends)
  {
    hide Takes, Offsets, NamesAt, InFlight;
    var pool := s.inflight - ends(k);
    OffsetsStep(order, k, s.inflight, cap, v, ends);
    FlightStep(order, k, s.inflight, cap, v, ends);
    var rest := Offsets(order, k + 1, Then(order[k], pool, cap, v), cap, v, ends);
    if Takes(order[k], pool, cap, v) {
      FirstName(order, k, rest);
      assert started + [order[k]] + NamesAt(order, rest) == started + ([order[k]] + NamesAt(order, rest));
    } else {
      assert [] + rest == rest;
    }
  }

  lemma FlightStep(order: seq<Name>, k: nat, inflight: set<Name>, cap: nat, v: View, ends: Ends)
    requires k < |order|
    ensures InFlight(order, k, inflight, cap, v, ends, |order|)
         == InFlight(order, k + 1, Then(order[k], inflight - ends(k), cap, v), cap, v, ends, |order|)
  {
    hide Then;
  }

  lemma {:induction false} WalkGives(order: seq<Name>, start: nat, k: nat, s: State, started: seq<Name>, cap: nat, v: View, ends: Ends)
    requires k <= |order|
    ensures LiveWalk(order, start, k, s, started, cap, v, ends) == Result(order, start, k, s, started, cap, v, ends)
    decreases |order| - k
  {
    hide Takes, LiveWalk, Result;
    if k == |order| {
      NothingLeft(order, start, k, s, started, cap, v, ends);
    } else {
      var pool := s.inflight - ends(k);
      LiveStep(order, start, k, s, started, cap, v, ends);
      ResultStep(order, start, k, s, started, cap, v, ends);
      if Takes(order[k], pool, cap, v) {
        WalkGives(order, start, k + 1, State(start + k + 1, pool + {order[k]}), started + [order[k]], cap, v, ends);
      } else {
        WalkGives(order, start, k + 1, State(s.cursor, pool), started, cap, v, ends);
      }
    }
  }

  lemma NothingLeft(order: seq<Name>, start: nat, k: nat, s: State, started: seq<Name>, cap: nat, v: View, ends: Ends)
    requires k == |order|
    ensures LiveWalk(order, start, k, s, started, cap, v, ends) == Result(order, start, k, s, started, cap, v, ends)
  {
    assert started + [] == started;
  }

  lemma FirstName(order: seq<Name>, k: nat, rest: seq<nat>)
    requires k < |order| && Within(rest, 0, |order|)
    ensures Within([k] + rest, 0, |order|)
    ensures NamesAt(order, [k] + rest) == [order[k]] + NamesAt(order, rest)
  {
    assert ([k] + rest)[1..] == rest;
  }

  /** A node is started exactly when it is wanted, idle and meets a pool with room. */
  lemma {:induction false} AdmittedIff(order: seq<Name>, k: nat, inflight: set<Name>, cap: nat, v: View, ends: Ends, d: nat)
    requires k <= d < |order|
    ensures d in Offsets(order, k, inflight, cap, v, ends) <==>
      Takes(order[d], Pool(order, k, inflight, cap, v, ends, d), cap, v)
    decreases d - k
  {
    hide Takes, Then, Offsets;
    OffsetsStep(order, k, inflight, cap, v, ends);
    if k < d {
      AdmittedIff(order, k + 1, Then(order[k], inflight - ends(k), cap, v), cap, v, ends, d);
    }
  }

  /** Offsets come in order, each at least as many places on as there are before it. */
  lemma {:induction false} OffsetsAscend(order: seq<Name>, k: nat, inflight: set<Name>, cap: nat, v: View, ends: Ends)
    requires k <= |order|
    ensures Ascends(Offsets(order, k, inflight, cap, v, ends), k)
    decreases |order| - k
  {
    hide Takes, Then;
    if k < |order| {
      OffsetsAscend(order, k + 1, Then(order[k], inflight - ends(k), cap, v), cap, v, ends);
    }
  }

  ghost predicate Ascends(offs: seq<nat>, k: nat) {
    && (forall i, j :: 0 <= i < j < |offs| ==> offs[i] < offs[j])
    && (forall i :: 0 <= i < |offs| ==> offs[i] >= k + i)
  }

  /** A node not in flight is not in the pool when its own turn comes. */
  lemma {:induction false} StaysIdle(order: seq<Name>, k: nat, inflight: set<Name>, cap: nat, v: View, ends: Ends, d: nat)
    requires k <= d < |order| && order[d] !in inflight && forall i :: k <= i < d ==> order[i] != order[d]
    ensures order[d] !in Pool(order, k, inflight, cap, v, ends, d)
    decreases d - k
  {
    if k < d {
      StaysIdle(order, k + 1, Then(order[k], inflight - ends(k), cap, v), cap, v, ends, d);
    }
  }

  // ---------------------------------------------------------------------------
  // When a scan passes a waiting node by
  // ---------------------------------------------------------------------------

  /** The scan leaves the node without a poll and its cursor past it. */
  predicate PassedBy(roster: seq<Name>, cap: nat, s: State, v: View, ends: Ends, n: Name)
    requires n in roster
  {
    var r := LiveScan(roster, cap, s, v, ends);
    n !in r.1 && r.0.cursor > Start(roster, s) + Distance(roster, s, n)
  }

  /** The pool was full when the node's turn came, and a later node was started. */
  ghost predicate FullThenFreed(roster: seq<Name>, cap: nat, s: State, v: View, ends: Ends, n: Name)
    requires IsRoster(roster) && n in roster
  {
    var order, d := Order(roster, s), Distance(roster, s, n);
    |order| == |roster| && |Pool(order, 0, s.inflight, cap, v, ends, d)| >= cap
    && exists o :: o in Offsets(order, 0, s.inflight, cap, v, ends) && o > d
  }

  /** What a scan returns. */
  lemma ScanGives(roster: seq<Name>, cap: nat, s: State, v: View, ends: Ends)
    ensures var r, order := LiveScan(roster, cap, s, v, ends), Order(roster, s);
      var offs := Offsets(order, 0, s.inflight, cap, v, ends);
      r.1 == NamesAt(order, offs) && r.0.cursor == Start(roster, s) + if offs == [] then 0 else offs[|offs| - 1] + 1
  {
    hide Order, LiveWalk, Offsets, InFlight, Start, NamesAt;
    var order := Order(roster, s);
    WalkGives(order, Start(roster, s), 0, State(Start(roster, s), s.inflight), [], cap, v, ends);
    assert [] + NamesAt(order, Offsets(order, 0, s.inflight, cap, v, ends))
        == NamesAt(order, Offsets(order, 0, s.inflight, cap, v, ends));
  }

  lemma NamedIff(order: seq<Name>, offs: seq<nat>, d: nat)
    requires d < |order| && Within(offs, 0, |order|) && forall i :: 0 <= i < |order| && order[i] == order[d] ==> i == d
    ensures order[d] in NamesAt(order, offs) <==> d in offs
  {
    var names := NamesAt(order, offs);
    hide NamesAt;
    if order[d] in names {
      var i :| 0 <= i < |names| && names[i] == order[d];
      assert offs[i] == d;
    }
    if d in offs {
      var i :| 0 <= i < |offs| && offs[i] == d;
      assert names[i] == order[d];
    }
  }

  /** A waiting node is started exactly when it meets a pool with room. */
  lemma StartedIff(roster: seq<Name>, cap: nat, s: State, v: View, ends: Ends, n: Name)
    requires IsRoster(roster) && n in roster && Eligible(s, v, n)
    ensures var order, d := Order(roster, s), Distance(roster, s, n);
      var offs := Offsets(order, 0, s.inflight, cap, v, ends);
      && |order| == |roster| && order[d] == n
      && (n in LiveScan(roster, cap, s, v, ends).1 <==> d in offs)
      && (d in offs <==> |Pool(order, 0, s.inflight, cap, v, ends, d)| < cap)
  {
    hide Order, Distance, LiveScan, Offsets, Pool, Start, NamesAt;
    var order, d := Order(roster, s), Distance(roster, s, n);
    OrderAtDistance(roster, s, n);
    ScanGives(roster, cap, s, v, ends);
    NamedIff(order, Offsets(order, 0, s.inflight, cap, v, ends), d);
    AdmittedIff(order, 0, s.inflight, cap, v, ends, d);
    StaysIdle(order, 0, s.inflight, cap, v, ends, d);
  }

  lemma LastIsLargest(offs: seq<nat>, k: nat, d: nat)
    requires Ascends(offs, k) && offs != [] && d !in offs
    ensures offs[|offs| - 1] in offs && offs[|offs| - 1] + 1 >= k + |offs|
    ensures offs[|offs| - 1] > d <==> exists o :: o in offs && o > d
  {
    var last := offs[|offs| - 1];
    assert last in offs;
    forall o | o in offs ensures o <= last {
      var i :| 0 <= i < |offs| && offs[i] == o;
    }
  }

  /** A waiting node is passed by if and only if it met a full pool from which a
      poll then ended in time for a later node. */
  lemma PassedByIff(roster: seq<Name>, cap: nat, s: State, v: View, ends: Ends, n: Name)
    requires IsRoster(roster) && n in roster && Eligible(s, v, n)
    ensures PassedBy(roster, cap, s, v, ends, n) <==> FullThenFreed(roster, cap, s, v, ends, n)
  {
    hide LiveScan, Order, Distance, Offsets, Pool, Start, NamesAt, IsRoster, Ascends;
    var order, d := Order(roster, s), Distance(roster, s, n);
    var offs := Offsets(order, 0, s.inflight, cap, v, ends);
    StartedIff(roster, cap, s, v, ends, n);
    ScanGives(roster, cap, s, v, ends);
    OffsetsAscend(order, 0, s.inflight, cap, v, ends);
    if d !in offs && offs != [] {
      LastIsLargest(offs, 0, d);
    }
  }

  /** No poll in flight ends after the node's own visit. */
  ghost predicate FreesNothingAfter(order: seq<Name>, inflight: set<Name>, cap: nat, v: View, ends: Ends, d: nat) {
    forall k :: d < k < |order| ==> InFlight(order, 0, inflight, cap, v, ends, k) !! ends(k)
  }

  lemma {:induction false} InFlightStep(order: seq<Name>, k: nat, inflight: set<Name>, cap: nat, v: View, ends: Ends, d: nat)
    requires k <= d < |order|
    ensures InFlight(order, k, inflight, cap, v, ends, d + 1) == Then(order[d], Pool(order, k, inflight, cap, v, ends, d), cap, v)
    decreases d - k
  {
    hide Then;
    if k < d {
      InFlightStep(order, k + 1, Then(order[k], inflight - ends(k), cap, v), cap, v, ends, d);
    }
  }

  lemma {:induction false} StaysFull(order: seq<Name>, inflight: set<Name>, cap: nat, v: View, ends: Ends, d: nat, k: nat)
    requires d <= k < |order| && FreesNothingAfter(order, inflight, cap, v, ends, d)
    requires |Pool(order, 0, inflight, cap, v, ends, d)| >= cap
    ensures |Pool(order, 0, inflight, cap, v, ends, k)| >= cap
    decreases k
  {
    hide InFlight, Pool;
    if k > d {
      StaysFull(order, inflight, cap, v, ends, d, k - 1);
      FullGoesOn(order, inflight, cap, v, ends, k);
    }
  }

  lemma FullGoesOn(order: seq<Name>, inflight: set<Name>, cap: nat, v: View, ends: Ends, k: nat)
    requires 0 < k < |order| && InFlight(order, 0, inflight, cap, v, ends, k) !! ends(k)
    requires |Pool(order, 0, inflight, cap, v, ends, k - 1)| >= cap
    ensures |Pool(order, 0, inflight, cap, v, ends, k)| >= cap
  {
    hide InFlight;
    InFlightStep(order, 0, inflight, cap, v, ends, k - 1);
    assert InFlight(order, 0, inflight, cap, v, ends, k) - ends(k) == InFlight(order, 0, inflight, cap, v, ends, k);
  }

  /** A scan that frees nothing after the node's own visit does not pass it by. */
  lemma NotPassedBy(roster: seq<Name>, cap: nat, s: State, v: View, ends: Ends, n: Name)
    requires IsRoster(roster) && n in roster
    requires FreesNothingAfter(Order(roster, s), s.inflight, cap, v, ends, Distance(roster, s, n))
    ensures !FullThenFreed(roster, cap, s, v, ends, n)
  {
    var order, d := Order(roster, s), Distance(roster, s, n);
    if FullThenFreed(roster, cap, s, v, ends, n) {
      var o :| o in Offsets(order, 0, s.inflight, cap, v, ends) && o > d;
      AdmittedIff(order, 0, s.inflight, cap, v, ends, o);
      StaysFull(order, s.inflight, cap, v, ends, d, o);
      assert false;
    }
  }

  // ---------------------------------------------------------------------------
  // Progress of one scan
  // ---------------------------------------------------------------------------

  /** The cursor just past offset `o`: a later node is that much closer, a passed
      one a round away. */
  lemma CursorPasses(roster: seq<Name>, s: State, o: nat, inflight: set<Name>, n: Name)
    requires IsRoster(roster) && n in roster && o < |roster| && o != Distance(roster, s, n)
    ensures Distance(roster, State(Start(roster, s) + o + 1, inflight), n) + o + 1
         == Distance(roster, s, n) + if o < Distance(roster, s, n) then 0 else |roster|
  {
    ModSmall(Start(roster, s) + o + 1, |roster|);
  }

  /** In one scan a waiting node at distance `d` is either started, after at most
      `d` others, or comes closer by at least as many places as nodes were
      started, unless it is passed by, which costs it at most a round; and if a
      slot was free, some node was started. */
  lemma LiveProgress(roster: seq<Name>, cap: nat, s: State, v: View, ends: Ends, n: Name)
    requires IsRoster(roster) && n in roster && Eligible(s, v, n)
    ensures var r, d := LiveScan(roster, cap, s, v, ends), Distance(roster, s, n);
      && (n in r.1 ==> Before(r.1, n) <= d)
      && (n !in r.1 ==> |r.1| + Distance(roster, r.0, n) <= d + if PassedBy(roster, cap, s, v, ends, n) then |roster| else 0)
      && (|s.inflight| < cap ==> r.1 != [])
  {
    hide LiveScan, Order, Distance, Offsets, Pool, Start, NamesAt, Ascends, Eligible;
    var order, d := Order(roster, s), Distance(roster, s, n);
    var offs := Offsets(order, 0, s.inflight, cap, v, ends);
    var r := LiveScan(roster, cap, s, v, ends);
    StartedIff(roster, cap, s, v, ends, n);
    ScanGives(roster, cap, s, v, ends);
    OffsetsAscend(order, 0, s.inflight, cap, v, ends);
    if offs == [] {
      NothingStarted(order, 0, s.inflight, cap, v, ends, d);
      CursorStays(roster, s, r.0.inflight, n);
    } else if d in offs {
      EarlyEnough(offs, d, order, n);
    } else {
      var last := offs[|offs| - 1];
      LastIsLargest(offs, 0, d);
      assert r.0 == State(Start(roster, s) + last + 1, r.0.inflight);
      CursorPasses(roster, s, last, r.0.inflight, n);
    }
  }

  lemma EarlyEnough(offs: seq<nat>, d: nat, order: seq<Name>, n: Name)
    requires Within(offs, 0, |order|) && Ascends(offs, 0) && d in offs && order[d] == n
    ensures Before(NamesAt(order, offs), n) <= d
  {
    var p :| 0 <= p < |offs| && offs[p] == d;
    BeforeAtMost(NamesAt(order, offs), n, p);
  }

  /** Without an admission the pool only shrinks. */
  lemma {:induction false} NothingStarted(order: seq<Name>, k: nat, inflight: set<Name>, cap: nat, v: View, ends: Ends, d: nat)
    requires k <= d < |order| && Offsets(order, k, inflight, cap, v, ends) == []
    ensures |Pool(order, k, inflight, cap, v, ends, d)| <= |inflight|
    decreases d - k
  {
    hide Takes;
    Shrinks(inflight, ends(k));
    if k < d {
      NothingStarted(order, k + 1, Then(order[k], inflight - ends(k), cap, v), cap, v, ends, d);
    }
  }

  lemma {:induction false} Shrinks(s: set<Name>, gone: set<Name>)
    ensures |s - gone| <= |s|
  {
    if s != {} {
      var x :| x in s;
      Shrinks(s - {x}, gone);
      assert s - gone == (s - {x} - gone) + if x in gone then {} else {x};
    }
  }

  // ---------------------------------------------------------------------------
  // Whole runs
  // ---------------------------------------------------------------------------

  datatype Happening = Scans(view: View, ends: Ends) | Finishes(name: Name)

  function After(roster: seq<Name>, cap: nat, s: State, e: Happening): State {
    match e
    case Scans(v, ends) => LiveScan(roster, cap, s, v, ends).0
    case Finishes(n) => s.(inflight := s.inflight - {n})
  }

  function Polled(roster: seq<Name>, cap: nat, s: State, e: Happening): seq<Name> {
    if e.Scans? then LiveScan(roster, cap, s, e.view, e.ends).1 else []
  }

  /** All polls started in the run, in order. */
  function AllPolled(roster: seq<Name>, cap: nat, s: State, run: seq<Happening>): seq<Name>
    decreases |run|
  {
    if run == [] then [] else Polled(roster, cap, s, run[0]) + AllPolled(roster, cap, After(roster, cap, s, run[0]), run[1..])
  }

  /** The node is eligible in every scan of the run until one starts it. */
  ghost predicate Waits(roster: seq<Name>, cap: nat, s: State, run: seq<Happening>, n: Name)
    decreases |run|
  {
    run == []
    || (&& (run[0].Scans? ==> Eligible(s, run[0].view, n))
        && (n in Polled(roster, cap, s, run[0]) || Waits(roster, cap, After(roster, cap, s, run[0]), run[1..], n)))
  }

  /** How many scans pass the node by before one starts it. */
  ghost function Passes(roster: seq<Name>, cap: nat, s: State, run: seq<Happening>, n: Name): nat
    requires n in roster
    decreases |run|
  {
    if run == [] || n in Polled(roster, cap, s, run[0]) then 0
    else
      (if run[0].Scans? && PassedBy(roster, cap, s, run[0].view, run[0].ends, n) then 1 else 0)
      + Passes(roster, cap, After(roster, cap, s, run[0]), run[1..], n)
  }

  /** A waiting node is overtaken by at most its distance from the cursor at the
      outset, and one round more for every scan that passes it by. */
  lemma {:induction false} LiveBypassBound(roster: seq<Name>, cap: nat, s: State, run: seq<Happening>, n: Name)
    requires IsRoster(roster) && n in roster && Waits(roster, cap, s, run, n)
    ensures Before(AllPolled(roster, cap, s, run), n) <= Distance(roster, s, n) + |roster| * Passes(roster, cap, s, run, n)
    decreases |run|
  {
    hide LiveScan, Distance, PassedBy;
    if run != [] {
      var e, names := run[0], Polled(roster, cap, s, run[0]);
      var s' := After(roster, cap, s, e);
      BeforeSplit(names, AllPolled(roster, cap, s', run[1..]), n);
      if e.Scans? {
        LiveProgress(roster, cap, s, e.view, e.ends, n);
      } else {
        SameDistance(roster, s, e.name, n);
      }
      if n !in names {
        LiveBypassBound(roster, cap, s', run[1..], n);
        OneRoundMore(|roster|, Passes(roster, cap, s', run[1..], n));
      }
    }
  }

  lemma SameDistance(roster: seq<Name>, s: State, gone: Name, n: Name)
    requires n in roster
    ensures Distance(roster, s.(inflight := s.inflight - {gone}), n) == Distance(roster, s, n)
  {
  }

  lemma OneRoundMore(r: nat, p: nat)
    ensures r * (1 + p) == r + r * p
  {
  }

  /** Every scan of the run begins with a free slot. */
  ghost predicate RoomAtStart(roster: seq<Name>, cap: nat, s: State, run: seq<Happening>)
    decreases |run|
  {
    run == []
    || ((run[0].Scans? ==> |s.inflight| < cap) && RoomAtStart(roster, cap, After(roster, cap, s, run[0]), run[1..]))
  }

  function ScanCount(run: seq<Happening>): nat {
    if run == [] then 0 else (if run[0].Scans? then 1 else 0) + ScanCount(run[1..])
  }

  /** If every scan begins with a free slot, more scans than that bound suffice. */
  lemma {:induction false} LivePolledEventually(roster: seq<Name>, cap: nat, s: State, run: seq<Happening>, n: Name)
    requires IsRoster(roster) && n in roster && Waits(roster, cap, s, run, n) && RoomAtStart(roster, cap, s, run)
    requires ScanCount(run) > Distance(roster, s, n) + |roster| * Passes(roster, cap, s, run, n)
    ensures n in AllPolled(roster, cap, s, run)
    decreases |run|
  {
    hide LiveScan, Distance, PassedBy;
    var e := run[0];
    var s' := After(roster, cap, s, e);
    if e.Scans? {
      LiveProgress(roster, cap, s, e.view, e.ends, n);
    } else {
      SameDistance(roster, s, e.name, n);
    }
    if n !in Polled(roster, cap, s, e) {
      OneRoundMore(|roster|, Passes(roster, cap, s', run[1..], n));
      LivePolledEventually(roster, cap, s', run[1..], n);
    }
  }

  // ---------------------------------------------------------------------------
  // A node passed by for ever
  // ---------------------------------------------------------------------------

  const THREE := ["a", "b", "c"]

  /** c's poll ends before a is visited, and a's before c is. */
  const UNLUCKY: Ends := (k: nat) => if k == 0 then {"c"} else if k == 2 then {"a"} else {}

  function UnluckyRun(k: nat, v: View): seq<Happening> {
    if k == 0 then [] else [Scans(v, UNLUCKY)] + UnluckyRun(k - 1, v)
  }

  lemma UnluckyScan(s: State, v: View)
    requires s.cursor % 3 == 0 && s.inflight == {"c"} && forall n :: n in THREE ==> v.Wants(n)
    ensures LiveScan(THREE, 1, s, v, UNLUCKY) == (State(3, {"c"}), ["a", "c"])
    ensures PassedBy(THREE, 1, s, v, UNLUCKY, "b")
  {
    assert Start(THREE, s) == 0 && Order(THREE, s) == THREE;
    assert "a" in THREE && "b" in THREE && "c" in THREE;
    var none: set<Name>, ac: seq<Name> := {}, ["a", "c"];
    assert {"c"} - UNLUCKY(0) == none && none + {"a"} == {"a"} && |none| == 0;
    assert {"a"} - UNLUCKY(1) == {"a"} && |{"a"}| == 1;
    assert {"a"} - UNLUCKY(2) == none && none + {"c"} == {"c"};
    assert [] + ["a"] == ["a"] && ["a"] + ["c"] == ac;
    LiveStep(THREE, 0, 0, State(0, {"c"}), [], 1, v, UNLUCKY);
    LiveStep(THREE, 0, 1, State(1, {"a"}), ["a"], 1, v, UNLUCKY);
    LiveStep(THREE, 0, 2, State(1, {"a"}), ["a"], 1, v, UNLUCKY);
    WalksEnd(THREE, 0, 3, State(3, {"c"}), ac, 1, v, UNLUCKY);
    BIsSecond(s);
    assert "b" !in ac;
  }

  lemma BIsSecond(s: State)
    requires s.cursor % 3 == 0
    ensures Start(THREE, s) == 0 && Distance(THREE, s, "b") == 1
  {
    assert THREE[1..][0] == "b";
  }

  /** With one slot and three nodes that are wanted in every scan, b is eligible
      in every scan, each of which starts two polls, and is never polled: every
      scan passes it by. */
  lemma {:induction false} PassedByForEver(k: nat, s: State, v: View)
    requires s.cursor % 3 == 0 && s.inflight == {"c"} && forall n :: n in THREE ==> v.Wants(n)
    ensures Waits(THREE, 1, s, UnluckyRun(k, v), "b") && "b" !in AllPolled(THREE, 1, s, UnluckyRun(k, v))
    ensures |AllPolled(THREE, 1, s, UnluckyRun(k, v))| == 2 * k && Passes(THREE, 1, s, UnluckyRun(k, v), "b") == k
  {
    hide LiveScan, PassedBy;
    if k > 0 {
      UnluckyScan(s, v);
      PassedByForEver(k - 1, State(3, {"c"}), v);
      var run := UnluckyRun(k, v);
      assert run[0] == Scans(v, UNLUCKY) && run[1..] == UnluckyRun(k - 1, v);
      assert "b" in THREE;
      var ac: seq<Name> := ["a", "c"];
      assert "b" !in ac;
    }
  }
}
