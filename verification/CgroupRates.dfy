/**
The CPU rates of the control-group scan: what one scan reports and remembers of a
directory's counter, and that over a run of scans the rates add up to what the
counter gained.
*/
module CgroupRates {
  import opened Common
  import opened CgroupScan

  // ---------------------------------------------------------------------------
  // One scan, read off its log
  // ---------------------------------------------------------------------------

  /** The last directory of the log was sampled: nothing before it was for its job. */
  predicate LastSampled(log: seq<Place>) {
    log != [] && log[|log| - 1].dir.stat.Some? && log[|log| - 1].dir.counters.Some?
    && VerdictOf(log[..|log| - 1], log[|log| - 1].jid).Absent?
  }

  /** What is remembered after the log, from `base` on. */
  function Readings(base: map<Identity, Usage>, log: seq<Place>, now: real): map<Identity, Usage> {
    if log == [] then base
    else
      var before, d := Readings(base, log[..|log| - 1], now), log[|log| - 1].dir;
      if LastSampled(log) then Remembered(before, d.stat.value, d.counters.value, now) else before
  }

  /** The figures the log gives a job id, from the directory that was sampled for it. */
  function Figures(base: map<Identity, Usage>, log: seq<Place>, jid: Jid, now: real): Option<Values> {
    if log == [] then None
    else
      var n := |log| - 1;
      if LastSampled(log) && log[n].jid == jid
      then Some(Sampled(Readings(base, log[..n], now), log[n].dir.stat.value, log[n].dir.counters.value, now))
      else Figures(base, log[..n], jid, now)
  }

  ghost predicate HasFigures(s: Scan, base: map<Identity, Usage>, now: real, jid: Jid) {
    jid in s.jobs ==> Figures(base, s.log, jid, now) == Some(s.jobs[jid])
  }

  ghost predicate Samples(s: Scan, base: map<Identity, Usage>, now: real) {
    && s.previous == Readings(base, s.log, now)
    && (forall jid :: HasFigures(s, base, now, jid))
    && (forall k :: 0 <= k < |s.log| ==> s.log[k].dir.stat.Some?)
    && KeepsLogged(s.kept, s.log)
  }

  lemma FiguresMore(base: map<Identity, Usage>, log: seq<Place>, p: Place, now: real, jid: Jid)
    requires p.dir.stat.Some?
    ensures var sampled := p.dir.counters.Some? && VerdictOf(log, p.jid).Absent?;
      && Readings(base, log + [p], now) ==
           (if sampled then Remembered(Readings(base, log, now), p.dir.stat.value, p.dir.counters.value, now)
            else Readings(base, log, now))
      && Figures(base, log + [p], jid, now) ==
           (if sampled && p.jid == jid
            then Some(Sampled(Readings(base, log, now), p.dir.stat.value, p.dir.counters.value, now))
            else Figures(base, log, jid, now))
  {
    hide VerdictOf, Remembered, Sampled;
    assert (log + [p])[..|log|] == log;
  }

  lemma ResolveSamples(s: Scan, jid: Jid, d: Dir, now: real, cap: nat, base: map<Identity, Usage>)
    requires Samples(s, base, now) && Inv(s, cap) && d.stat.Some?
    ensures Samples(Resolve(s, jid, d, now).0, base, now)
  {
    hide Readings, Figures, Remembered, Sampled, VerdictOf, Occurs, HasFigures;
    var r, p := Resolve(s, jid, d, now).0, Place(jid, d);
    assert JidOk(s, jid);
    assert r.log == s.log + [p];
    FiguresMore(base, s.log, p, now, jid);
    forall x ensures HasFigures(r, base, now, x) {
      assert HasFigures(s, base, now, x);
      ResolveFigures(s, jid, d, now, base, x);
    }
    KeptMore(s.log, p, s.kept, d.stat.value);
  }

  /** The directories kept are those of the record. */
  ghost predicate KeepsLogged(kept: set<Identity>, log: seq<Place>) {
    forall id :: id in kept <==> exists k :: 0 <= k < |log| && log[k].dir.stat == Some(id)
  }

  lemma KeptMore(log: seq<Place>, p: Place, kept: set<Identity>, id: Identity)
    requires KeepsLogged(kept, log) && p.dir.stat == Some(id)
    ensures KeepsLogged(kept + {id}, log + [p])
  {
    var more := log + [p];
    assert more[|log|] == p;
    forall x | x in kept ensures exists k :: 0 <= k < |more| && more[k].dir.stat == Some(x) {
      var k :| 0 <= k < |log| && log[k].dir.stat == Some(x);
      assert more[k] == log[k];
    }
  }

  lemma ResolveFigures(s: Scan, jid: Jid, d: Dir, now: real, base: map<Identity, Usage>, x: Jid)
    requires d.stat.Some? && JidOk(s, jid) && HasFigures(s, base, now, x) && s.previous == Readings(base, s.log, now)
    ensures HasFigures(Resolve(s, jid, d, now).0, base, now, x)
  {
    hide Readings, Figures, Remembered, Sampled, VerdictOf, Occurs;
    FiguresMore(base, s.log, Place(jid, d), now, x);
  }

  lemma SameSamples(s: Scan, r: Scan, base: map<Identity, Usage>, now: real)
    requires Samples(s, base, now) && r.jobs == s.jobs && r.log == s.log && r.previous == s.previous && r.kept == s.kept
    ensures Samples(r, base, now)
  {
    hide Readings, Figures;
    forall x ensures HasFigures(r, base, now, x) {
      assert HasFigures(s, base, now, x);
    }
  }

  lemma VisitSamples(s: Scan, e: Entry, depth: nat, cap: nat, now: real, base: map<Identity, Usage>)
    requires Samples(s, base, now) && Inv(s, cap)
    ensures Samples(Visit(s, e, depth, cap, now).0, base, now)
  {
    hide Inv, Samples, KindOf, JobIdOf, Resolve;
    var r := Visit(s, e, depth, cap, now).0;
    var s1 := s.(visited := s.visited + 1);
    SameSamples(s, s1, base, now);
    Unchanged(s, s1, cap);
    if e.Child? && s1.visited <= MAX_VISITED && |s.jobs| < cap && e.dir.Some? && e.dir.value.stat.Some?
       && (KindOf(e.name, depth).JobDir? || KindOf(e.name, depth).SluidDir?)
       && JobIdOf(KindOf(e.name, depth), e.dir.value) != "" {
      ResolveSamples(s1, JobIdOf(KindOf(e.name, depth), e.dir.value), e.dir.value, now, cap, base);
    } else {
      SameSamples(s, r, base, now);
    }
  }

  lemma {:induction false} WalkSamples(s: Scan, d: Dir, i: nat, depth: nat, cap: nat, now: real, queue: seq<(Dir, nat)>,
                                       base: map<Identity, Usage>)
    requires Samples(s, base, now) && Inv(s, cap) && Within(s)
    ensures Samples(Walk(s, d, i, depth, cap, now, queue).0, base, now)
    decreases |d.entries| - i
  {
    hide Inv, Samples;
    if i < |d.entries| {
      VisitSamples(s, d.entries[i], depth, cap, now, base);
      VisitKeeps(s, d.entries[i], depth, cap, now);
      var v := Visit(s, d.entries[i], depth, cap, now);
      if v.2 {
        WalkSamples(v.0, d, i + 1, depth, cap, now, queue + v.1, base);
      }
    }
  }

  lemma {:induction false} BfsSamples(s: Scan, queue: seq<(Dir, nat)>, cap: nat, now: real, base: map<Identity, Usage>)
    requires s.visited <= MAX_VISITED + 1 && (!s.truncated ==> Within(s)) && Inv(s, cap) && Samples(s, base, now)
    ensures Samples(Bfs(s, queue, cap, now), base, now)
    decreases |queue| + MAX_VISITED + 1 - s.visited
  {
    hide Walk, Inv, Samples;
    if queue != [] && !s.truncated {
      var (d, depth) := queue[0];
      if d.stat.None? || d.stat.value in s.seen {
        SameSamples(s, s.(complete := false), base, now);
        Unchanged(s, s.(complete := false), cap);
        BfsSamples(s.(complete := false), queue[1..], cap, now, base);
      } else {
        var s1 := s.(seen := s.seen + {d.stat.value});
        SameSamples(s, s1, base, now);
        Unchanged(s, s1, cap);
        WalkSamples(s1, d, 0, depth, cap, now, queue[1..], base);
        WalkKeeps(s1, d, 0, depth, cap, now, queue[1..]);
        var w := Walk(s1, d, 0, depth, cap, now, queue[1..]);
        BfsSamples(w.0, w.1, cap, now, base);
      }
    }
  }

  lemma {:induction false} ScopesSample(s: Scan, scopes: seq<Option<Dir>>, i: nat, cap: nat, now: real, base: map<Identity, Usage>)
    requires s.visited <= MAX_VISITED + 1 && (!s.truncated ==> Within(s)) && Inv(s, cap) && Samples(s, base, now)
    ensures Samples(Scopes(s, scopes, i, cap, now), base, now)
    decreases |scopes| - i
  {
    hide Inv, Samples, Bfs;
    if i < |scopes| && !s.truncated {
      if scopes[i].None? {
        SameSamples(s, s.(complete := false), base, now);
        Unchanged(s, s.(complete := false), cap);
        ScopesSample(s.(complete := false), scopes, i + 1, cap, now, base);
      } else {
        var queue := [(scopes[i].value, 0)];
        BfsWithin(s, queue, cap, now);
        BfsKeeps(s, queue, cap, now);
        BfsSamples(s, queue, cap, now, base);
        ScopesSample(Bfs(s, queue, cap, now), scopes, i + 1, cap, now, base);
      }
    }
  }

  lemma {:induction false} ParentsSample(s: Scan, parents: seq<Parent>, i: nat, cap: nat, now: real, base: map<Identity, Usage>)
    requires s.visited <= MAX_VISITED + 1 && (!s.truncated ==> Within(s)) && Inv(s, cap) && Samples(s, base, now)
    ensures Samples(Parents(s, parents, i, cap, now).0, base, now)
    decreases |parents| - i
  {
    hide Inv, Samples, Scopes;
    if i < |parents| && !s.truncated {
      SameSamples(s, s.(complete := false), base, now);
      Unchanged(s, s.(complete := false), cap);
      if !parents[i].opens {
        ParentsSample(s.(complete := false), parents, i + 1, cap, now, base);
      } else if parents[i].scopes.Some? {
        ScopesKeep(s, parents[i].scopes.value, 0, cap, now);
        ScopesSample(s, parents[i].scopes.value, 0, cap, now, base);
        ParentsSample(Scopes(s, parents[i].scopes.value, 0, cap, now), parents, i + 1, cap, now, base);
      }
    }
  }

  lemma FinalSamples(base: map<Identity, Usage>, w: World, cap: nat, now: real)
    ensures Samples(Final(base, w, cap, now), base, now) && Inv(Final(base, w, cap, now), cap)
  {
    hide Parents, Inv;
    StartKeeps(base, cap);
    ParentsKeep(Start(base), w.parents, 0, cap, now);
    ParentsSample(Start(base), w.parents, 0, cap, now, base);
  }

  // ---------------------------------------------------------------------------
  // A directory that was resolved once
  // ---------------------------------------------------------------------------

  /** Entry `i` of the log is the only one about the directory, and the one its
      job is reported with. */
  ghost predicate Solely(log: seq<Place>, id: Identity, i: nat) {
    && i < |log| && log[i].dir.stat == Some(id) && SoleAt(log, log[i].jid, i)
    && forall k :: 0 <= k < |log| && k != i ==> log[k].dir.stat != Some(id)
  }

  /** Other directories do not touch what is remembered of this one. */
  lemma {:induction false} ReadingsSpare(base: map<Identity, Usage>, log: seq<Place>, now: real, id: Identity)
    requires forall k :: 0 <= k < |log| ==> log[k].dir.stat != Some(id)
    ensures var r := Readings(base, log, now); (id in r <==> id in base) && (id in r ==> r[id] == base[id])
    decreases |log|
  {
    hide LastSampled;
    if log != [] {
      var n := |log| - 1;
      assert forall k :: 0 <= k < n ==> log[..n][k] == log[k];
      ReadingsSpare(base, log[..n], now, id);
      LastHasStat(log);
    }
  }

  lemma LastHasStat(log: seq<Place>)
    ensures LastSampled(log) ==> log != [] && log[|log| - 1].dir.stat.Some? && log[|log| - 1].dir.counters.Some?
  {
  }

  lemma SoleIsSampled(log: seq<Place>, i: nat)
    requires i < |log| && SoleAt(log, log[i].jid, i) && log[i].dir.stat.Some?
    ensures LastSampled(log[..i + 1])
  {
    var l := log[..i + 1];
    assert l[..i] == log[..i];
    AbsentIff(log[..i], log[i].jid);
  }

  /** The figures of a sole directory are read off the remembered readings before it. */
  lemma {:induction false} SoleFigures(base: map<Identity, Usage>, log: seq<Place>, now: real, i: nat)
    requires i < |log| && SoleAt(log, log[i].jid, i) && log[i].dir.stat.Some?
    ensures Figures(base, log, log[i].jid, now) ==
      Some(Sampled(Readings(base, log[..i], now), log[i].dir.stat.value, log[i].dir.counters.value, now))
    decreases |log|
  {
    hide Sampled, Readings, LastSampled;
    var n := |log| - 1;
    if i == n {
      SoleIsSampled(log, i);
      assert log[..i + 1] == log;
    } else {
      assert forall k :: 0 <= k < n ==> log[..n][k] == log[k];
      assert log[..n][..i] == log[..i];
      SoleFigures(base, log[..n], now, i);
      assert log[n].jid != log[i].jid;
    }
  }

  /** Its reading is what is remembered of it afterwards. */
  lemma {:induction false} SoleReading(base: map<Identity, Usage>, log: seq<Place>, now: real, id: Identity, i: nat)
    requires Solely(log, id, i)
    ensures var r, c := Readings(base, log, now), log[i].dir.counters.value;
      if c.usage.Some? && c.usage.value >= 0 then id in r && r[id] == Usage(now, c.usage.value) else id !in r
    decreases |log|
  {
    hide LastSampled;
    var n := |log| - 1;
    if i == n {
      SoleIsSampled(log, i);
      assert log[..i + 1] == log;
    } else {
      assert forall k :: 0 <= k < n ==> log[..n][k] == log[k];
      SoleReading(base, log[..n], now, id, i);
      LastHasStat(log);
    }
  }

  // ---------------------------------------------------------------------------
  // Runs of scans
  // ---------------------------------------------------------------------------

  /** One call of the sampler: what it finds and when. */
  datatype Sample = Sample(world: World, now: real)

  predicate Readable(w: World) {
    w.opens && w.controllers.Content?
  }

  function Next(base: map<Identity, Usage>, x: Sample, cap: nat): map<Identity, Usage> {
    Kept(base, x.world, cap, x.now)
  }

  function After(base: map<Identity, Usage>, run: seq<Sample>, cap: nat): map<Identity, Usage> {
    if run == [] then base else Next(After(base, run[..|run| - 1], cap), run[|run| - 1], cap)
  }

  /** The call reports the directory as entry `i` of its log, for one job, with this
      counter and this rate. */
  ghost predicate Reports(base: map<Identity, Usage>, x: Sample, cap: nat, id: Identity, i: nat, usec: Option<int>, rate: Option<real>) {
    var s := Final(base, x.world, cap, x.now);
    && Readable(x.world) && !Parents(Start(base), x.world.parents, 0, cap, x.now).1
    && Solely(s.log, id, i) && s.log[i].dir.counters.value.usage == usec
    && s.log[i].jid in s.jobs && s.jobs[s.log[i].jid].cpuCores == rate
  }

  predicate Usable(usec: Option<int>) {
    usec.Some? && usec.value >= 0
  }

  /** There is an earlier reading that the counter can be compared with. */
  predicate Comparable(base: map<Identity, Usage>, id: Identity, usec: Option<int>, now: real) {
    Usable(usec) && id in base && now > base[id].at && usec.value >= base[id].usec
  }

  lemma ReadingBefore(base: map<Identity, Usage>, log: seq<Place>, now: real, id: Identity, i: nat)
    requires Solely(log, id, i)
    ensures var r := Readings(base, log[..i], now); (id in r <==> id in base) && (id in r ==> r[id] == base[id])
  {
    hide Readings, SoleAt;
    assert forall k :: 0 <= k < i ==> log[..i][k] == log[k];
    ReadingsSpare(base, log[..i], now, id);
  }

  /** What a rate in cores makes up over a time in seconds, in microseconds. */
  function Gain(rate: Option<real>, seconds: real): real {
    if rate.Some? then rate.value * seconds * 1000000.0 else 0.0
  }

  /** The rate of a directory that is reported once: there is one exactly when an
      earlier reading can be compared, and then it times the time since makes up
      what the counter gained. */
  lemma RateOfOneScan(base: map<Identity, Usage>, x: Sample, cap: nat, id: Identity, i: nat, usec: Option<int>, rate: Option<real>)
    requires Reports(base, x, cap, id, i, usec, rate)
    ensures rate.Some? <==> Comparable(base, id, usec, x.now)
    ensures rate.Some? ==> Gain(rate, x.now - base[id].at) == (usec.value - base[id].usec) as real
  {
    hide Gain, Parents, Readings, Figures, SoleAt, Sampled;
    var s := Final(base, x.world, cap, x.now);
    FinalSamples(base, x.world, cap, x.now);
    var jid := s.log[i].jid;
    SoleAtOf(s.log, id, i);
    SoleFigures(base, s.log, x.now, i);
    assert HasFigures(s, base, x.now, jid);
    ReadingBefore(base, s.log, x.now, id, i);
    RateIs(Readings(base, s.log[..i], x.now), id, s.log[i].dir.counters.value, x.now);
  }

  lemma SoleAtOf(log: seq<Place>, id: Identity, i: nat)
    requires Solely(log, id, i)
    ensures SoleAt(log, log[i].jid, i) && log[i].dir.counters.Some?
  {
  }

  lemma RateIs(previous: map<Identity, Usage>, id: Identity, c: Counters, now: real)
    ensures var rate := Sampled(previous, id, c, now).cpuCores;
      && (rate.Some? <==> Comparable(previous, id, c.usage, now))
      && (rate.Some? ==> Gain(rate, now - previous[id].at) == (c.usage.value - previous[id].usec) as real)
  {
    if Comparable(previous, id, c.usage, now) {
      Quotient((c.usage.value - previous[id].usec) as real, now - previous[id].at);
    }
  }

  lemma Quotient(x: real, dt: real)
    requires dt > 0.0
    ensures x / dt / 1000000.0 * dt * 1000000.0 == x
  {
    var q := x / dt;
    assert q * dt == x;
    var r := q / 1000000.0;
    assert r * 1000000.0 == q;
    assert r * dt * 1000000.0 == r * 1000000.0 * dt;
  }

  /** What is remembered of it: its reading if that is usable, and else nothing. */
  lemma RememberedAfterScan(base: map<Identity, Usage>, x: Sample, cap: nat, id: Identity, i: nat, usec: Option<int>, rate: Option<real>)
    requires Reports(base, x, cap, id, i, usec, rate)
    ensures var r := Next(base, x, cap);
      if Usable(usec) then id in r && r[id] == Usage(x.now, usec.value) else id !in r
  {
    hide Parents, Readings, Figures, SoleAt, HasFigures;
    var s := Final(base, x.world, cap, x.now);
    FinalSamples(base, x.world, cap, x.now);
    SoleReading(base, s.log, x.now, id, i);
    assert s.log[i].dir.stat == Some(id);
  }

  /** A directory that is not found is forgotten. */
  lemma ForgottenWhenGone(base: map<Identity, Usage>, x: Sample, cap: nat, id: Identity)
    requires !Parents(Start(base), x.world.parents, 0, cap, x.now).1
    requires forall k :: 0 <= k < |Final(base, x.world, cap, x.now).log| ==>
      Final(base, x.world, cap, x.now).log[k].dir.stat != Some(id)
    ensures id !in Next(base, x, cap)
  {
    hide Parents, Readings, Figures, HasFigures;
    FinalSamples(base, x.world, cap, x.now);
  }

  /** Everything is forgotten when the tree cannot be opened or its controllers read. */
  lemma ForgottenWithTheTree(base: map<Identity, Usage>, x: Sample, cap: nat)
    requires !x.world.opens || !x.world.controllers.Content?
    ensures |Next(base, x, cap)| == 0
  {
  }

  /** Reported rates times the seconds between the calls, in microseconds. */
  function Gained(run: seq<Sample>, rates: seq<Option<real>>): real
    requires |run| == |rates|
    decreases |run|
  {
    if |run| <= 1 then 0.0
    else
      var n := |run| - 1;
      Gained(run[..n], rates[..n])
      + Gain(rates[n], run[n].now - run[n - 1].now)
  }

  /** A directory is reported once in each call of a run, its counter never
      falling and the clock always going on. */
  ghost predicate Steady(base: map<Identity, Usage>, run: seq<Sample>, cap: nat, id: Identity,
                         places: seq<nat>, usecs: seq<int>, rates: seq<Option<real>>)
  {
    && |run| == |places| == |usecs| == |rates|
    && (forall k :: 0 <= k < |run| ==>
          usecs[k] >= 0 && Reports(After(base, run[..k], cap), run[k], cap, id, places[k], Some(usecs[k]), rates[k]))
    && (forall k :: 0 < k < |run| ==> run[k].now > run[k - 1].now && usecs[k] >= usecs[k - 1])
  }

  lemma SteadyBefore(base: map<Identity, Usage>, run: seq<Sample>, cap: nat, id: Identity,
                     places: seq<nat>, usecs: seq<int>, rates: seq<Option<real>>)
    requires Steady(base, run, cap, id, places, usecs, rates) && run != []
    ensures var n := |run| - 1; Steady(base, run[..n], cap, id, places[..n], usecs[..n], rates[..n])
  {
    hide Reports, After;
    var n := |run| - 1;
    forall k | 0 <= k < n
      ensures Reports(After(base, run[..n][..k], cap), run[..n][k], cap, id, places[..n][k], Some(usecs[..n][k]), rates[..n][k])
    {
      assert run[..n][..k] == run[..k];
    }
  }

  /** The last call of such a run, given what was remembered before it. */
  lemma LastRate(base: map<Identity, Usage>, run: seq<Sample>, cap: nat, id: Identity,
                 places: seq<nat>, usecs: seq<int>, rates: seq<Option<real>>, before: map<Identity, Usage>)
    requires Steady(base, run, cap, id, places, usecs, rates) && run != [] && before == After(base, run[..|run| - 1], cap)
    ensures var n := |run| - 1; var r := Next(before, run[n], cap);
      && id in r && r[id] == Usage(run[n].now, usecs[n])
      && (id !in before ==> rates[n].None?)
      && (n > 0 && id in before && before[id] == Usage(run[n - 1].now, usecs[n - 1]) ==>
           rates[n].Some? && Gain(rates[n], run[n].now - run[n - 1].now) == (usecs[n] - usecs[n - 1]) as real)
  {
    hide Reports, Next, Gain, After;
    var n := |run| - 1;
    RateOfOneScan(before, run[n], cap, id, places[n], Some(usecs[n]), rates[n]);
    RememberedAfterScan(before, run[n], cap, id, places[n], Some(usecs[n]), rates[n]);
  }

  ghost predicate RatesFrom1(rates: seq<Option<real>>) {
    forall k :: 0 < k < |rates| ==> rates[k].Some?
  }

  lemma RatesFrom1Step(rates: seq<Option<real>>)
    requires |rates| > 1 && RatesFrom1(rates[..|rates| - 1]) && rates[|rates| - 1].Some?
    ensures RatesFrom1(rates)
  {
    forall k | 0 < k < |rates| ensures rates[k].Some? {
      assert k < |rates| - 1 ==> rates[..|rates| - 1][k] == rates[k];
    }
  }

  /** Over such a run every call but the first reports a rate, the first only if
      something was remembered from before, and the rates times the elapsed times
      add up to the last reading minus the first. */
  lemma {:induction false} RatesAddUp(base: map<Identity, Usage>, run: seq<Sample>, cap: nat, id: Identity,
                                      places: seq<nat>, usecs: seq<int>, rates: seq<Option<real>>)
    requires Steady(base, run, cap, id, places, usecs, rates) && run != []
    ensures id !in base ==> rates[0].None?
    ensures RatesFrom1(rates)
    ensures Gained(run, rates) == (usecs[|run| - 1] - usecs[0]) as real
    ensures var r := After(base, run, cap); id in r && r[id] == Usage(run[|run| - 1].now, usecs[|run| - 1])
    decreases |run|
  {
    hide Reports, Next, Gain, Steady, RatesFrom1;
    var n := |run| - 1;
    Lengths(base, run, cap, id, places, usecs, rates);
    LastRate(base, run, cap, id, places, usecs, rates, After(base, run[..n], cap));
    if n > 0 {
      SteadyBefore(base, run, cap, id, places, usecs, rates);
      RatesAddUp(base, run[..n], cap, id, places[..n], usecs[..n], rates[..n]);
      RatesFrom1Step(rates);
    } else {
      assert run[..0] == [];
      OneRate(rates);
    }
  }

  lemma OneRate(rates: seq<Option<real>>)
    requires |rates| == 1
    ensures RatesFrom1(rates)
  {
  }

  lemma Lengths(base: map<Identity, Usage>, run: seq<Sample>, cap: nat, id: Identity,
                places: seq<nat>, usecs: seq<int>, rates: seq<Option<real>>)
    requires Steady(base, run, cap, id, places, usecs, rates)
    ensures |run| == |places| == |usecs| == |rates|
  {
  }
}
