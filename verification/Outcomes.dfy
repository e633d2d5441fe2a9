/**
Job outcomes: watched jobs that disappear from a clean snapshot are handed to the
outcome worker in batches, and stay tracked when its queue is full.
*/
module Outcomes {
  import opened Common

  type Jid = string
  type Source = string

  const BATCH := 32

  // ---------------------------------------------------------------------------
  // Data
  // ---------------------------------------------------------------------------

  datatype Job = Job(jobname: string, user: string, elapsed: string)

  datatype Listed = Listed(jid: Jid, job: Job)

  datatype Snapshot = Snapshot(errors: bool, jobs: seq<Listed>, sources: map<Jid, Source>)

  /** What the worker gets: the jobs that went, those whose final state matters,
      and where their logs are. */
  datatype Outcome = Outcome(jobs: seq<Listed>, states: seq<Jid>, sources: map<Jid, Source>)

  datatype Config = Config(doneUsers: set<string>, failUsers: set<string>) {
    predicate FailAll() {
      "*" in failUsers
    }

    predicate Watches() {
      doneUsers != {} || failUsers != {}
    }

    predicate Watched(user: string) {
      FailAll() || user in doneUsers || user in failUsers
    }

    predicate WantsState(user: string) {
      FailAll() || user in failUsers
    }
  }

  /** The record: a job listed in a clean snapshot, and a job handed over. */
  datatype Entry = Seen(jid: Jid, job: Job) | Handed(jid: Jid, job: Job)

  /** `order` is the insertion order of the tracked jobs. */
  datatype State = State(jobs: map<Jid, Job>, order: seq<Jid>, sources: map<Jid, Source>, log: seq<Entry>)

  const START := State(map[], [], map[], [])

  ghost predicate Ordered(jobs: map<Jid, Job>, order: seq<Jid>) {
    Lists(order, jobs.Keys)
  }

  // ---------------------------------------------------------------------------
  // One snapshot
  // ---------------------------------------------------------------------------

  /** `{j["jobid"]: j for j in jobs if watched}`: the last listing of an id wins. */
  function Current(c: Config, listed: seq<Listed>): map<Jid, Job> {
    if listed == [] then map[]
    else
      var rest, l := Current(c, listed[..|listed| - 1]), listed[|listed| - 1];
      if c.Watched(l.job.user) then rest[l.jid := l.job] else rest
  }

  function WatchedIds(c: Config, listed: seq<Listed>): seq<Jid> {
    if listed == [] then []
    else
      var rest, l := WatchedIds(c, listed[..|listed| - 1]), listed[|listed| - 1];
      if c.Watched(l.job.user) then rest + [l.jid] else rest
  }

  /** The tracked jobs that are not listed any more, in order. */
  function Gone(order: seq<Jid>, current: map<Jid, Job>): seq<Jid> {
    if order == [] then []
    else
      var rest, jid := Gone(order[..|order| - 1], current), order[|order| - 1];
      if jid in current then rest else rest + [jid]
  }

  function BatchEnd(gone: seq<Jid>, offset: nat): (end: nat)
    requires offset < |gone|
    ensures offset < end <= |gone|
  {
    if offset + BATCH < |gone| then offset + BATCH else |gone|
  }

  function Listing(jobs: map<Jid, Job>, jids: seq<Jid>): (r: seq<Listed>)
    requires forall jid :: jid in jids ==> jid in jobs
    ensures |r| == |jids| && forall i :: 0 <= i < |r| ==> r[i] == Listed(jids[i], jobs[jids[i]])
  {
    if jids == [] then []
    else
      assert forall jid :: jid in jids[..|jids| - 1] ==> jid in jids;
      Listing(jobs, jids[..|jids| - 1]) + [Listed(jids[|jids| - 1], jobs[jids[|jids| - 1]])]
  }

  function StateIds(c: Config, batch: seq<Listed>): seq<Jid> {
    if batch == [] then []
    else
      var rest, l := StateIds(c, batch[..|batch| - 1]), batch[|batch| - 1];
      if c.WantsState(l.job.user) then rest + [l.jid] else rest
  }

  function OutcomeOf(c: Config, jobs: map<Jid, Job>, sources: map<Jid, Source>, jids: seq<Jid>): Outcome
    requires forall jid :: jid in jids ==> jid in jobs
  {
    Outcome(Listing(jobs, jids), StateIds(c, Listing(jobs, jids)), map jid | jid in sources && jid in jids :: sources[jid])
  }

  /** The batches from `offset` on whose turn in the queue was refused;
      `accepts(k)` says whether the batch at offset `k` finds room. */
  function Deferred(gone: seq<Jid>, accepts: nat -> bool, offset: nat): seq<Jid>
    decreases |gone| - offset
  {
    if offset >= |gone| then []
    else
      var end := BatchEnd(gone, offset);
      (if accepts(offset) then [] else gone[offset..end]) + Deferred(gone, accepts, end)
  }

  function Accepted(gone: seq<Jid>, accepts: nat -> bool, offset: nat): seq<Jid>
    decreases |gone| - offset
  {
    if offset >= |gone| then []
    else
      var end := BatchEnd(gone, offset);
      (if accepts(offset) then gone[offset..end] else []) + Accepted(gone, accepts, end)
  }

  ghost predicate AllIn<T>(s: seq<T>, m: set<T>) {
    forall x :: x in s ==> x in m
  }

  function Events(c: Config, jobs: map<Jid, Job>, sources: map<Jid, Source>, gone: seq<Jid>, accepts: nat -> bool,
                  offset: nat): seq<Outcome>
    requires AllIn(gone, jobs.Keys)
    decreases |gone| - offset
  {
    if offset >= |gone| then []
    else
      var end := BatchEnd(gone, offset);
      (if accepts(offset) then [OutcomeOf(c, jobs, sources, gone[offset..end])] else [])
      + Events(c, jobs, sources, gone, accepts, end)
  }

  function HandedEntries(jobs: map<Jid, Job>, jids: seq<Jid>): seq<Entry>
    requires AllIn(jids, jobs.Keys)
  {
    if jids == [] then []
    else
      assert AllIn(jids[..|jids| - 1], jobs.Keys);
      HandedEntries(jobs, jids[..|jids| - 1]) + [Handed(jids[|jids| - 1], jobs[jids[|jids| - 1]])]
  }

  function SeenEntries(c: Config, listed: seq<Listed>): seq<Entry> {
    if listed == [] then []
    else
      var rest, l := SeenEntries(c, listed[..|listed| - 1]), listed[|listed| - 1];
      if c.Watched(l.job.user) then rest + [Seen(l.jid, l.job)] else rest
  }

  lemma {:induction false} GoneIs(order: seq<Jid>, current: map<Jid, Job>)
    ensures forall jid :: jid in Gone(order, current) <==> jid in order && jid !in current
  {
    if order != [] {
      GoneIs(order[..|order| - 1], current);
      assert order == order[..|order| - 1] + [order[|order| - 1]];
    }
  }

  lemma GoneAreTracked(order: seq<Jid>, jobs: map<Jid, Job>, current: map<Jid, Job>)
    requires Ordered(jobs, order)
    ensures AllIn(Gone(order, current), jobs.Keys)
  {
    GoneIs(order, current);
  }

  function Restricted<V>(m: map<Jid, V>, jids: seq<Jid>): map<Jid, V> {
    map jid | jid in m && jid in jids :: m[jid]
  }

  /** A clean snapshot: what is kept is what is listed now and what was deferred. */
  function Diffed(c: Config, st: State, s: Snapshot, accepts: nat -> bool): State
    requires Ordered(st.jobs, st.order)
  {
    var current := Current(c, s.jobs);
    var gone := Gone(st.order, current);
    var deferred := Deferred(gone, accepts, 0);
    AcceptedAreTracked(st, current, accepts);
    State(current + Restricted(st.jobs, deferred),
          Dedup(WatchedIds(c, s.jobs)) + deferred,
          s.sources + Restricted(st.sources, deferred),
          st.log + HandedEntries(st.jobs, Accepted(gone, accepts, 0)) + SeenEntries(c, s.jobs))
  }

  function Step(c: Config, st: State, s: Snapshot, accepts: nat -> bool): State
    requires Ordered(st.jobs, st.order)
  {
    if c.Watches() && !s.errors then Diffed(c, st, s, accepts)
    else if s.errors then st.(sources := map[])
    else st
  }

  // ---------------------------------------------------------------------------
  // Batches
  // ---------------------------------------------------------------------------

  lemma BatchStep(gone: seq<Jid>, accepts: nat -> bool, offset: nat)
    requires offset < |gone|
    ensures var end := BatchEnd(gone, offset);
      && Accepted(gone, accepts, offset) == (if accepts(offset) then gone[offset..end] else []) + Accepted(gone, accepts, end)
      && Deferred(gone, accepts, offset) == (if accepts(offset) then [] else gone[offset..end]) + Deferred(gone, accepts, end)
  {
    hide BatchEnd;
  }

  ghost predicate Halves<T>(a: seq<T>, d: seq<T>, s: seq<T>) {
    multiset(a) + multiset(d) == multiset(s)
  }

  /** Every job that went is in exactly one of the two, once. */
  lemma {:induction false} AcceptedOrDeferred(gone: seq<Jid>, accepts: nat -> bool, offset: nat)
    requires offset <= |gone|
    ensures Halves(Accepted(gone, accepts, offset), Deferred(gone, accepts, offset), gone[offset..])
    decreases |gone| - offset
  {
    if offset < |gone| {
      hide Accepted, Deferred, BatchEnd, Halves;
      var end := BatchEnd(gone, offset);
      BatchStep(gone, accepts, offset);
      AcceptedOrDeferred(gone, accepts, end);
      assert gone[offset..] == gone[offset..end] + gone[end..];
      EitherPart(gone[offset..end], gone[end..], Accepted(gone, accepts, end), Deferred(gone, accepts, end), accepts(offset));
    }
  }

  /** A batch put in front of one of two parts. */
  lemma EitherPart<T>(batch: seq<T>, rest: seq<T>, a: seq<T>, d: seq<T>, accepted: bool)
    requires Halves(a, d, rest)
    ensures Halves((if accepted then batch else []) + a, (if accepted then [] else batch) + d, batch + rest)
  {
    assert multiset(batch + rest) == multiset(batch) + multiset(rest);
    if accepted {
      assert multiset(batch + a) == multiset(batch) + multiset(a) && [] + d == d;
    } else {
      assert multiset(batch + d) == multiset(batch) + multiset(d) && [] + a == a;
    }
  }

  ghost predicate Distinct<T>(s: seq<T>) {
    forall i, j :: 0 <= i < j < |s| ==> s[i] != s[j]
  }

  lemma {:induction false} CountOne<T>(s: seq<T>, x: T)
    requires Distinct(s)
    ensures multiset(s)[x] == if x in s then 1 else 0
  {
    if s != [] {
      var k := |s| - 1;
      assert s == s[..k] + [s[k]];
      CountOne(s[..k], x);
      if x == s[k] {
        assert x !in s[..k];
      }
    }
  }

  lemma {:induction false} OnceIsDistinct<T>(s: seq<T>)
    requires forall x :: multiset(s)[x] <= 1
    ensures Distinct(s)
  {
    forall i, j | 0 <= i < j < |s| ensures s[i] != s[j] {
      assert s == s[..j] + [s[j]] + s[j + 1..];
      assert multiset(s)[s[j]] >= multiset(s[..j])[s[j]] + 1;
      assert s[j] !in multiset(s[..j]);
      assert s[..j][i] == s[i] && s[i] in s[..j];
    }
  }

  lemma {:induction false} GoneIsDistinct(order: seq<Jid>, current: map<Jid, Job>)
    requires Distinct(order)
    ensures Distinct(Gone(order, current))
  {
    if order != [] {
      GoneIsDistinct(order[..|order| - 1], current);
      GoneIs(order[..|order| - 1], current);
    }
  }

  /** Accepted and deferred split the jobs that went. */
  ghost predicate Splits(gone: seq<Jid>, accepted: seq<Jid>, deferred: seq<Jid>) {
    && Distinct(accepted) && Distinct(deferred)
    && (forall jid :: jid in gone <==> jid in accepted || jid in deferred)
    && (forall jid :: jid in accepted ==> jid !in deferred)
  }

  lemma BatchesSplit(gone: seq<Jid>, accepts: nat -> bool)
    requires Distinct(gone)
    ensures Splits(gone, Accepted(gone, accepts, 0), Deferred(gone, accepts, 0))
  {
    hide Accepted, Deferred, Distinct;
    var a, d := Accepted(gone, accepts, 0), Deferred(gone, accepts, 0);
    AcceptedOrDeferred(gone, accepts, 0);
    assert gone[0..] == gone;
    forall x ensures multiset(a)[x] + multiset(d)[x] == if x in gone then 1 else 0 {
      CountOne(gone, x);
      assert (multiset(a) + multiset(d))[x] == multiset(gone)[x];
    }
    OnceIsDistinct(a);
    OnceIsDistinct(d);
    forall jid ensures (jid in a <==> multiset(a)[jid] > 0) && (jid in d <==> multiset(d)[jid] > 0) {
    }
  }

  lemma AcceptedAreTracked(st: State, current: map<Jid, Job>, accepts: nat -> bool)
    requires Ordered(st.jobs, st.order)
    ensures AllIn(Accepted(Gone(st.order, current), accepts, 0), st.jobs.Keys)
    ensures AllIn(Gone(st.order, current), st.jobs.Keys)
  {
    hide Accepted;
    GoneIsDistinct(st.order, current);
    BatchesSplit(Gone(st.order, current), accepts);
    GoneAreTracked(st.order, st.jobs, current);
  }

  // ---------------------------------------------------------------------------
  // The record, read on its own
  // ---------------------------------------------------------------------------

  /** The job as last listed, unless it has been handed over since. */
  function Tracked(log: seq<Entry>, jid: Jid): Option<Job> {
    if log == [] then None
    else
      var before, e := Tracked(log[..|log| - 1], jid), log[|log| - 1];
      if e.jid != jid then before else if e.Seen? then Some(e.job) else None
  }

  /** How often a job came under tracking. */
  function Entries(log: seq<Entry>, jid: Jid): nat {
    if log == [] then 0
    else
      var before, e := log[..|log| - 1], log[|log| - 1];
      Entries(before, jid) + if e.Seen? && e.jid == jid && Tracked(before, jid).None? then 1 else 0
  }

  /** How often its outcome was handed over. */
  function Outcomes(log: seq<Entry>, jid: Jid): nat {
    if log == [] then 0
    else Outcomes(log[..|log| - 1], jid) + if log[|log| - 1].Handed? && log[|log| - 1].jid == jid then 1 else 0
  }

  /** What is handed over is tracked, as last listed. */
  ghost predicate LogOk(log: seq<Entry>) {
    forall i :: 0 <= i < |log| && log[i].Handed? ==> Tracked(log[..i], log[i].jid) == Some(log[i].job)
  }

  lemma {:induction false} EntriesMinusOutcomes(log: seq<Entry>, jid: Jid)
    requires LogOk(log)
    ensures Entries(log, jid) - Outcomes(log, jid) == if Tracked(log, jid).Some? then 1 else 0
  {
    if log != [] {
      var k := |log| - 1;
      assert LogOk(log[..k]) by {
        forall i | 0 <= i < k && log[..k][i].Handed? ensures Tracked(log[..k][..i], log[..k][i].jid) == Some(log[..k][i].job) {
          assert log[..k][..i] == log[..i] && log[..k][i] == log[i];
        }
      }
      EntriesMinusOutcomes(log[..k], jid);
    }
  }

  function Lookup(m: map<Jid, Job>, jid: Jid): Option<Job> {
    if jid in m then Some(m[jid]) else None
  }

  ghost predicate Agrees(log: seq<Entry>, m: map<Jid, Job>) {
    (forall jid :: Tracked(log, jid) == Lookup(m, jid)) && LogOk(log)
  }

  lemma Append(log: seq<Entry>, e: Entry, m: map<Jid, Job>)
    requires Agrees(log, m) && (e.Handed? ==> Lookup(m, e.jid) == Some(e.job))
    ensures Agrees(log + [e], if e.Seen? then m[e.jid := e.job] else m - {e.jid})
  {
    var more := log + [e];
    assert more[..|log|] == log && more[|log|] == e;
    forall jid ensures Tracked(more, jid) == Lookup(if e.Seen? then m[e.jid := e.job] else m - {e.jid}, jid) {
      assert Tracked(log, jid) == Lookup(m, jid);
    }
    assert Tracked(log, e.jid) == Lookup(m, e.jid);
    hide Tracked;
    forall i | 0 <= i < |more| && more[i].Handed? ensures Tracked(more[..i], more[i].jid) == Some(more[i].job) {
      if i < |log| {
        assert more[..i] == log[..i] && more[i] == log[i];
      }
    }
  }

  function SetOf<T>(s: seq<T>): set<T> {
    set x | x in s
  }

  lemma PrefixIsDistinct<T>(s: seq<T>, m: set<T>)
    requires s != [] && Distinct(s) && AllIn(s, m)
    ensures var k := |s| - 1;
      Distinct(s[..k]) && AllIn(s[..k], m) && s[k] in m && s[k] !in s[..k] && SetOf(s) == SetOf(s[..k]) + {s[k]}
  {
    var k := |s| - 1;
    assert s == s[..k] + [s[k]];
    assert s[k] in s;
  }

  lemma {:induction false} HandOver(log: seq<Entry>, jobs: map<Jid, Job>, jids: seq<Jid>)
    requires Agrees(log, jobs) && AllIn(jids, jobs.Keys) && Distinct(jids)
    ensures Agrees(log + HandedEntries(jobs, jids), jobs - SetOf(jids))
  {
    hide Agrees, Distinct, AllIn, SetOf;
    if jids == [] {
      assert log + [] == log;
      assert SetOf(jids) == {} by { EmptySet(jids); }
      assert jobs - {} == jobs;
    } else {
      var k := |jids| - 1;
      PrefixIsDistinct(jids, jobs.Keys);
      InSetOf(jids[..k], jids[k]);
      var before, e := HandedEntries(jobs, jids[..k]), Handed(jids[k], jobs[jids[k]]);
      HandOver(log, jobs, jids[..k]);
      Append(log + before, e, jobs - SetOf(jids[..k]));
      assert log + (before + [e]) == log + before + [e];
      assert jobs - (SetOf(jids[..k]) + {jids[k]}) == jobs - SetOf(jids[..k]) - {jids[k]};
    }
  }

  lemma EmptySet<T>(s: seq<T>)
    requires s == []
    ensures SetOf(s) == {}
  {
  }

  lemma InSetOf<T>(s: seq<T>, x: T)
    ensures x in SetOf(s) <==> x in s
  {
  }

  lemma {:induction false} TakeIn(c: Config, log: seq<Entry>, m: map<Jid, Job>, listed: seq<Listed>)
    requires Agrees(log, m)
    ensures Agrees(log + SeenEntries(c, listed), m + Current(c, listed))
  {
    if listed == [] {
      assert log + [] == log;
      assert m + map[] == m;
    } else {
      var k := |listed| - 1;
      var l := listed[k];
      var before := log + SeenEntries(c, listed[..k]);
      TakeIn(c, log, m, listed[..k]);
      hide Agrees;
      if c.Watched(l.job.user) {
        Append(before, Seen(l.jid, l.job), m + Current(c, listed[..k]));
        assert log + SeenEntries(c, listed) == before + [Seen(l.jid, l.job)];
        assert m + Current(c, listed) == (m + Current(c, listed[..k]))[l.jid := l.job];
      }
    }
  }

  // ---------------------------------------------------------------------------
  // Every run
  // ---------------------------------------------------------------------------

  lemma {:induction false} IdsAreCurrent(c: Config, listed: seq<Listed>)
    ensures forall jid :: jid in WatchedIds(c, listed) <==> jid in Current(c, listed)
  {
    if listed != [] {
      IdsAreCurrent(c, listed[..|listed| - 1]);
    }
  }

  lemma DiffedIsOrdered(c: Config, st: State, s: Snapshot, accepts: nat -> bool)
    requires Ordered(st.jobs, st.order)
    ensures Ordered(Diffed(c, st, s, accepts).jobs, Diffed(c, st, s, accepts).order)
  {
    hide Accepted, Deferred, Current, Gone, WatchedIds, Distinct;
    var current := Current(c, s.jobs);
    var gone := Gone(st.order, current);
    var deferred := Deferred(gone, accepts, 0);
    IdsAreCurrent(c, s.jobs);
    GoneIs(st.order, current);
    DistinctOrder(st.jobs, st.order);
    GoneIsDistinct(st.order, current);
    BatchesSplit(gone, accepts);
    JoinLists(Dedup(WatchedIds(c, s.jobs)), deferred, Restricted(st.jobs, deferred).Keys, current.Keys);
    assert (current + Restricted(st.jobs, deferred)).Keys == current.Keys + Restricted(st.jobs, deferred).Keys;
  }

  lemma DistinctOrder(jobs: map<Jid, Job>, order: seq<Jid>)
    requires Ordered(jobs, order)
    ensures Distinct(order)
  {
  }

  lemma JoinLists(a: seq<Jid>, b: seq<Jid>, t: set<Jid>, s: set<Jid>)
    requires (forall x :: x in a <==> x in s) && (forall x :: x in b <==> x in t) && s !! t
    requires (forall i, j :: 0 <= i < j < |a| ==> a[i] != a[j]) && Distinct(b)
    ensures Lists(a + b, s + t)
  {
    forall i, j | 0 <= i < j < |a + b| ensures (a + b)[i] != (a + b)[j] {
      if i < |a| <= j {
        assert a[i] in s && b[j - |a|] in t;
      }
    }
  }

  lemma DiffedAgrees(c: Config, st: State, s: Snapshot, accepts: nat -> bool)
    requires Ordered(st.jobs, st.order) && Agrees(st.log, st.jobs)
    ensures Agrees(Diffed(c, st, s, accepts).log, Diffed(c, st, s, accepts).jobs)
  {
    hide Accepted, Deferred, Agrees, Tracked;
    var current := Current(c, s.jobs);
    var gone := Gone(st.order, current);
    var accepted, deferred := Accepted(gone, accepts, 0), Deferred(gone, accepts, 0);
    GoneIs(st.order, current);
    GoneIsDistinct(st.order, current);
    BatchesSplit(gone, accepts);
    AcceptedAreTracked(st, current, accepts);
    HandOver(st.log, st.jobs, accepted);
    var left := st.jobs - SetOf(accepted);
    TakeIn(c, st.log + HandedEntries(st.jobs, accepted), left, s.jobs);
    assert left + current == current + Restricted(st.jobs, deferred);
  }

  /** Snapshots in order, each with the answers of the queue. */
  datatype Input = Input(snapshot: Snapshot, accepts: nat -> bool)

  ghost predicate Inv(st: State) {
    Ordered(st.jobs, st.order) && Agrees(st.log, st.jobs)
  }

  lemma StepIsOrdered(c: Config, st: State, s: Snapshot, accepts: nat -> bool)
    requires Ordered(st.jobs, st.order)
    ensures Ordered(Step(c, st, s, accepts).jobs, Step(c, st, s, accepts).order)
  {
    hide Ordered, Diffed;
    if c.Watches() && !s.errors {
      DiffedIsOrdered(c, st, s, accepts);
    }
  }

  ghost function Run(c: Config, inputs: seq<Input>): (st: State)
    ensures Ordered(st.jobs, st.order)
  {
    if inputs == [] then START
    else
      var before, i := Run(c, inputs[..|inputs| - 1]), inputs[|inputs| - 1];
      StepIsOrdered(c, before, i.snapshot, i.accepts);
      Step(c, before, i.snapshot, i.accepts)
  }

  lemma {:induction false} RunAgrees(c: Config, inputs: seq<Input>)
    ensures Agrees(Run(c, inputs).log, Run(c, inputs).jobs)
  {
    hide Agrees, Ordered, Diffed;
    if inputs == [] {
      StartAgrees();
    } else {
      var before, i := Run(c, inputs[..|inputs| - 1]), inputs[|inputs| - 1];
      RunAgrees(c, inputs[..|inputs| - 1]);
      if c.Watches() && !i.snapshot.errors {
        DiffedAgrees(c, before, i.snapshot, i.accepts);
      }
    }
  }

  lemma StartAgrees()
    ensures Agrees([], map[])
  {
  }

  /** Over every run: a job's entries into tracking minus its outcomes handed
      over is 0 or 1, and 1 exactly while it is tracked; every outcome handed
      over was tracked and carries the job as last listed; what is tracked is
      the job as last listed. */
  lemma OutcomesBalance(c: Config, inputs: seq<Input>, jid: Jid)
    ensures var st := Run(c, inputs); Entries(st.log, jid) - Outcomes(st.log, jid) == if jid in st.jobs then 1 else 0
    ensures LogOk(Run(c, inputs).log)
    ensures Tracked(Run(c, inputs).log, jid) == Lookup(Run(c, inputs).jobs, jid)
  {
    hide Run;
    RunAgrees(c, inputs);
    EntriesMinusOutcomes(Run(c, inputs).log, jid);
  }

  /** A failed snapshot changes neither what is tracked nor the record. */
  lemma FailedSnapshotsAreIgnored(c: Config, inputs: seq<Input>, i: Input)
    requires i.snapshot.errors
    ensures Run(c, inputs + [i]).jobs == Run(c, inputs).jobs
    ensures Run(c, inputs + [i]).order == Run(c, inputs).order
    ensures Run(c, inputs + [i]).log == Run(c, inputs).log
  {
    hide Diffed;
    assert (inputs + [i])[..|inputs|] == inputs;
  }

  /** After a clean snapshot each tracked job is listed now, or handed over, or
      still tracked as it was. */
  lemma NothingIsLost(c: Config, st: State, s: Snapshot, accepts: nat -> bool, jid: Jid)
    requires Ordered(st.jobs, st.order) && jid in st.jobs
    ensures var current, st' := Current(c, s.jobs), Diffed(c, st, s, accepts);
      var accepted := Accepted(Gone(st.order, current), accepts, 0);
      if jid in current then jid !in accepted && Lookup(st'.jobs, jid) == Some(current[jid])
      else if jid in accepted then jid !in st'.jobs
      else Lookup(st'.jobs, jid) == Some(st.jobs[jid])
  {
    hide Accepted, Deferred, Current, Gone, Distinct;
    var current := Current(c, s.jobs);
    DistinctOrder(st.jobs, st.order);
    GoneIsDistinct(st.order, current);
    GoneIs(st.order, current);
    BatchesSplit(Gone(st.order, current), accepts);
    AcceptedAreTracked(st, current, accepts);
  }

  // ---------------------------------------------------------------------------
  // Events
  // ---------------------------------------------------------------------------

  function Flat(events: seq<Outcome>): seq<Listed> {
    if events == [] then [] else events[0].jobs + Flat(events[1..])
  }

  lemma {:induction false} ListingOfParts(jobs: map<Jid, Job>, a: seq<Jid>, b: seq<Jid>)
    requires AllIn(a, jobs.Keys) && AllIn(b, jobs.Keys) && AllIn(a + b, jobs.Keys)
    ensures Listing(jobs, a + b) == Listing(jobs, a) + Listing(jobs, b)
  {
    hide Listing;
    assert Listing(jobs, a + b) == Listing(jobs, a) + Listing(jobs, b);
  }

  lemma {:induction false} AcceptedAreGone(gone: seq<Jid>, accepts: nat -> bool, offset: nat)
    ensures forall jid :: jid in Accepted(gone, accepts, offset) ==> jid in gone
    decreases |gone| - offset
  {
    if offset < |gone| {
      AcceptedAreGone(gone, accepts, BatchEnd(gone, offset));
    }
  }

  /** A list of events holds these jobs, 1 to 32 an event. */
  ghost predicate Carries(events: seq<Outcome>, listed: seq<Listed>) {
    Flat(events) == listed && forall e :: e in events ==> 1 <= |e.jobs| <= BATCH
  }

  lemma CarriesMore(e: Outcome, events: seq<Outcome>, listed: seq<Listed>)
    requires Carries(events, listed) && 1 <= |e.jobs| <= BATCH
    ensures Carries([e] + events, e.jobs + listed)
  {
    assert ([e] + events)[1..] == events;
  }

  /** The accepted events hold 1 to 32 jobs each and, together and in order,
      exactly the accepted jobs as last recorded. */
  lemma {:induction false} EventsCarryTheAccepted(c: Config, jobs: map<Jid, Job>, sources: map<Jid, Source>, gone: seq<Jid>,
                                                  accepts: nat -> bool, offset: nat)
    requires AllIn(gone, jobs.Keys)
    ensures AllIn(Accepted(gone, accepts, offset), jobs.Keys)
    ensures Carries(Events(c, jobs, sources, gone, accepts, offset), Listing(jobs, Accepted(gone, accepts, offset)))
    decreases |gone| - offset
  {
    hide Listing, StateIds, Carries;
    AcceptedAreGone(gone, accepts, offset);
    if offset >= |gone| {
      assert Carries([], Listing(jobs, [])) by { NoneCarried(jobs); }
    } else {
      var end := BatchEnd(gone, offset);
      var batch, rest := gone[offset..end], Accepted(gone, accepts, end);
      var more := Events(c, jobs, sources, gone, accepts, end);
      EventsCarryTheAccepted(c, jobs, sources, gone, accepts, end);
      if accepts(offset) {
        assert AllIn(batch, jobs.Keys);
        ListingOfParts(jobs, batch, rest);
        CarriesMore(OutcomeOf(c, jobs, sources, batch), more, Listing(jobs, rest));
      } else {
        assert [] + more == more && [] + rest == rest;
      }
    }
  }

  lemma NoneCarried(jobs: map<Jid, Job>)
    ensures Carries([], Listing(jobs, []))
  {
  }

  ghost predicate ReportsFailure(c: Config, l: Listed, jid: Jid) {
    l.jid == jid && ("*" in c.failUsers || l.job.user in c.failUsers)
  }

  /** Final states are asked for exactly the jobs of users whose failures are watched. */
  lemma {:induction false} StatesOfFailWatched(c: Config, batch: seq<Listed>, jid: Jid)
    ensures jid in StateIds(c, batch) <==> exists i :: 0 <= i < |batch| && ReportsFailure(c, batch[i], jid)
  {
    if batch != [] {
      var k := |batch| - 1;
      StatesOfFailWatched(c, batch[..k], jid);
      if jid in StateIds(c, batch[..k]) {
        var i :| 0 <= i < k && ReportsFailure(c, batch[..k][i], jid);
        assert batch[i] == batch[..k][i];
      }
      if exists i :: 0 <= i < |batch| && ReportsFailure(c, batch[i], jid) {
        var i :| 0 <= i < |batch| && ReportsFailure(c, batch[i], jid);
        if i < k {
          assert batch[i] == batch[..k][i];
        }
      }
    }
  }

  // ---------------------------------------------------------------------------
  // What a snapshot tracks, hands over and asks for, in the configuration's terms
  // ---------------------------------------------------------------------------

  /** The users whose finished jobs are reported. */
  ghost predicate Follows(c: Config, user: string) {
    "*" in c.failUsers || user in c.doneUsers || user in c.failUsers
  }

  ghost predicate FollowedRow(c: Config, l: Listed, jid: Jid) {
    l.jid == jid && Follows(c, l.job.user)
  }

  ghost predicate IsLastRow(c: Config, listed: seq<Listed>, jid: Jid, i: nat) {
    && i < |listed| && FollowedRow(c, listed[i], jid)
    && forall k :: i < k < |listed| ==> !FollowedRow(c, listed[k], jid)
  }

  lemma {:induction false} CurrentIs(c: Config, listed: seq<Listed>, jid: Jid)
    ensures jid in Current(c, listed) <==> exists i :: 0 <= i < |listed| && FollowedRow(c, listed[i], jid)
  {
    if listed != [] {
      var k := |listed| - 1;
      CurrentIs(c, listed[..k], jid);
      assert forall i :: 0 <= i < k ==> listed[..k][i] == listed[i];
    }
  }

  lemma {:induction false} CurrentIsLast(c: Config, listed: seq<Listed>, jid: Jid, i: nat)
    requires IsLastRow(c, listed, jid, i)
    ensures Lookup(Current(c, listed), jid) == Some(listed[i].job)
  {
    var k := |listed| - 1;
    if i < k {
      assert !FollowedRow(c, listed[k], jid);
      CurrentIsLast(c, listed[..k], jid, i);
    }
  }

  /** The k-th of the jobs gone is deferred exactly when the batch it falls in,
      32 by 32 from the first, finds the queue full. */
  lemma {:induction false} DeferredIff(gone: seq<Jid>, accepts: nat -> bool, offset: nat, k: nat)
    requires Distinct(gone) && offset <= k < |gone| && offset % BATCH == 0
    ensures gone[k] in Deferred(gone, accepts, offset) <==> !accepts(k - k % BATCH)
    decreases |gone| - offset
  {
    hide Distinct;
    var end := BatchEnd(gone, offset);
    DeferredAreLater(gone, accepts, end);
    DistinctAt(gone, k);
    if k < end {
      assert k - k % BATCH == offset by { InBatch(offset, k); }
      assert gone[k] in gone[offset..end] by { assert gone[offset..end][k - offset] == gone[k]; }
    } else {
      DeferredIff(gone, accepts, end, k);
    }
  }

  lemma DistinctAt(s: seq<Jid>, k: nat)
    requires Distinct(s) && k < |s|
    ensures forall i :: 0 <= i < |s| && s[i] == s[k] ==> i == k
  {
  }

  lemma InBatch(offset: nat, k: nat)
    requires offset % BATCH == 0 && offset <= k < offset + BATCH
    ensures k - k % BATCH == offset
  {
  }

  lemma {:induction false} DeferredAreLater(gone: seq<Jid>, accepts: nat -> bool, offset: nat)
    ensures forall jid :: jid in Deferred(gone, accepts, offset) ==> exists i :: offset <= i < |gone| && gone[i] == jid
    decreases |gone| - offset
  {
    if offset < |gone| {
      DeferredAreLater(gone, accepts, BatchEnd(gone, offset));
    }
  }

  /** What a clean snapshot tracks when somebody's jobs are followed: a followed
      user's job on the list, as its last row has it, and a job that is not on
      the list only if it was tracked and its batch found no room. Any other
      snapshot tracks what was tracked. */
  lemma StepTracks(c: Config, st: State, s: Snapshot, accepts: nat -> bool, jid: Jid)
    requires Ordered(st.jobs, st.order)
    ensures s.errors || (c.doneUsers == {} && c.failUsers == {}) ==> Step(c, st, s, accepts).jobs == st.jobs
    ensures !s.errors && (c.doneUsers != {} || c.failUsers != {}) ==>
      && (forall i: nat :: IsLastRow(c, s.jobs, jid, i) ==> Lookup(Step(c, st, s, accepts).jobs, jid) == Some(s.jobs[i].job))
      && ((forall i :: 0 <= i < |s.jobs| ==> !FollowedRow(c, s.jobs[i], jid)) ==>
        Lookup(Step(c, st, s, accepts).jobs, jid)
        == if jid in Deferred(Gone(st.order, Current(c, s.jobs)), accepts, 0) then Lookup(st.jobs, jid) else None)
  {
    hide Current, Deferred, Gone, Accepted, WatchedIds, SeenEntries, HandedEntries, Ordered, FollowedRow, Distinct;
    CurrentIs(c, s.jobs, jid);
    forall i: nat | IsLastRow(c, s.jobs, jid, i) ensures Lookup(Current(c, s.jobs), jid) == Some(s.jobs[i].job) {
      CurrentIsLast(c, s.jobs, jid, i);
    }
    if !s.errors && c.Watches() {
      StepKeeps(c, st, s, accepts, jid);
    }
  }

  lemma StepKeeps(c: Config, st: State, s: Snapshot, accepts: nat -> bool, jid: Jid)
    requires Ordered(st.jobs, st.order)
    ensures var current := Current(c, s.jobs);
      Lookup(Diffed(c, st, s, accepts).jobs, jid)
      == if jid in current then Some(current[jid])
         else if jid in Deferred(Gone(st.order, current), accepts, 0) then Lookup(st.jobs, jid) else None
  {
    hide Current, Deferred, Gone, Accepted, WatchedIds, SeenEntries, HandedEntries, Distinct;
    var current := Current(c, s.jobs);
    var gone := Gone(st.order, current);
    GoneIs(st.order, current);
    DistinctOrder(st.jobs, st.order);
    GoneIsDistinct(st.order, current);
    BatchesSplit(gone, accepts);
  }

  /** The log sources known afterwards: those of a deferred job as they were, any
      other's from the snapshot; none after a failed snapshot. */
  lemma StepSources(c: Config, st: State, s: Snapshot, accepts: nat -> bool, jid: Jid)
    requires Ordered(st.jobs, st.order)
    ensures s.errors ==> |Step(c, st, s, accepts).sources| == 0
    ensures !s.errors && c.doneUsers == {} && c.failUsers == {} ==> Step(c, st, s, accepts).sources == st.sources
    ensures !s.errors && (c.doneUsers != {} || c.failUsers != {}) ==>
      var sources := Step(c, st, s, accepts).sources;
      if jid in st.sources && jid in Deferred(Gone(st.order, Current(c, s.jobs)), accepts, 0)
      then jid in sources && sources[jid] == st.sources[jid]
      else if jid in s.sources then jid in sources && sources[jid] == s.sources[jid]
      else jid !in sources
  {
    hide Current, Deferred, Gone, Accepted, WatchedIds, SeenEntries, HandedEntries;
  }

  function Missing(current: map<Jid, Job>): Jid -> nat {
    (jid: Jid) => if jid in current then 0 else 1
  }

  /** The jobs gone keep their order: each comes after as many as went before it. */
  lemma {:induction false} GoneAt(order: seq<Jid>, current: map<Jid, Job>, k: nat)
    requires k < |order| && order[k] !in current
    ensures |Gone(order, current)| == Total(order, Missing(current))
    ensures Total(order[..k], Missing(current)) < |Gone(order, current)|
    ensures Gone(order, current)[Total(order[..k], Missing(current))] == order[k]
    decreases |order|
  {
    var n := |order| - 1;
    GoneCount(order, current);
    GoneCount(order[..n], current);
    TotalSnoc(order, n, Missing(current));
    assert order[..n + 1] == order;
    if k < n {
      assert order[..n][..k] == order[..k] && order[..n][k] == order[k];
      GoneAt(order[..n], current, k);
    }
  }

  lemma {:induction false} GoneCount(order: seq<Jid>, current: map<Jid, Job>)
    ensures |Gone(order, current)| == Total(order, Missing(current))
    decreases |order|
  {
    if order != [] {
      var n := |order| - 1;
      GoneCount(order[..n], current);
      TotalSnoc(order, n, Missing(current));
      assert order[..n + 1] == order;
    }
  }

  /** The first row of a job of a followed user. */
  ghost predicate IsFirstRow(c: Config, listed: seq<Listed>, i: nat) {
    && i < |listed| && Follows(c, listed[i].job.user)
    && forall k :: 0 <= k < i && Follows(c, listed[k].job.user) ==> listed[k].jid != listed[i].jid
  }

  ghost function FirstRows(c: Config, listed: seq<Listed>, n: nat): nat
    requires n <= |listed|
  {
    if n == 0 then 0 else FirstRows(c, listed, n - 1) + if IsFirstRow(c, listed, n - 1) then 1 else 0
  }

  lemma {:induction false} WatchedIdsAre(c: Config, listed: seq<Listed>, n: nat, jid: Jid)
    requires n <= |listed|
    ensures jid in WatchedIds(c, listed[..n]) <==> exists k :: 0 <= k < n && Follows(c, listed[k].job.user) && listed[k].jid == jid
  {
    if n > 0 {
      assert listed[..n][..n - 1] == listed[..n - 1];
      WatchedIdsAre(c, listed, n - 1, jid);
    }
  }

  lemma {:induction false} FirstRowsCount(c: Config, listed: seq<Listed>, n: nat)
    requires n <= |listed|
    ensures |Dedup(WatchedIds(c, listed[..n]))| == FirstRows(c, listed, n)
    ensures forall i: nat :: i < n && IsFirstRow(c, listed, i) ==>
      IsAt(Dedup(WatchedIds(c, listed[..n])), FirstRows(c, listed, i), listed[i].jid)
  {
    hide IsFirstRow, WatchedIds, Dedup;
    if n == 0 {
      NobodyWatched(c, listed);
    } else {
      FirstRowsCount(c, listed, n - 1);
      FirstRowsStep(c, listed, n);
    }
  }

  ghost predicate IsAt(ids: seq<Jid>, i: nat, jid: Jid) {
    i < |ids| && ids[i] == jid
  }

  lemma NobodyWatched(c: Config, listed: seq<Listed>)
    ensures Dedup(WatchedIds(c, listed[..0])) == []
  {
  }

  lemma FirstRowsStep(c: Config, listed: seq<Listed>, n: nat)
    requires 0 < n <= |listed|
    ensures Dedup(WatchedIds(c, listed[..n]))
         == Dedup(WatchedIds(c, listed[..n - 1])) + if IsFirstRow(c, listed, n - 1) then [listed[n - 1].jid] else []
  {
    var l, before := listed[n - 1], WatchedIds(c, listed[..n - 1]);
    assert listed[..n][..n - 1] == listed[..n - 1];
    WatchedIdsAre(c, listed, n - 1, l.jid);
    assert (before + [l.jid])[..|before|] == before;
    assert Dedup(before) + [] == Dedup(before);
  }

  /** Jobs are tracked in the order in which the snapshot first lists them, and
      the deferred ones after them. */
  lemma StepOrder(c: Config, st: State, s: Snapshot, accepts: nat -> bool, i: nat)
    requires Ordered(st.jobs, st.order) && !s.errors && c.Watches() && i < |s.jobs| && IsFirstRow(c, s.jobs, i)
    ensures var order, n := Step(c, st, s, accepts).order, FirstRows(c, s.jobs, |s.jobs|);
      && FirstRows(c, s.jobs, i) < n <= |order| && order[FirstRows(c, s.jobs, i)] == s.jobs[i].jid
      && order[n..] == Deferred(Gone(st.order, Current(c, s.jobs)), accepts, 0)
  {
    hide Current, Deferred, Gone, Accepted, WatchedIds, SeenEntries, HandedEntries, IsFirstRow, FirstRows;
    FirstRowsCount(c, s.jobs, |s.jobs|);
    assert s.jobs[..|s.jobs|] == s.jobs;
  }

  /** An event: the jobs as tracked, the ids of those whose users' failures are
      reported, and the log sources known for its jobs. */
  ghost predicate IsEvent(c: Config, jobs: map<Jid, Job>, sources: map<Jid, Source>, e: Outcome) {
    && (forall l :: l in e.jobs ==> Lookup(jobs, l.jid) == Some(l.job))
    && (forall jid :: jid in e.states <==>
      exists l :: l in e.jobs && ReportsFailure(c, l, jid))
    && (forall jid :: jid in e.sources <==> jid in sources && exists l :: l in e.jobs && l.jid == jid)
    && (forall jid :: jid in e.sources ==> e.sources[jid] == sources[jid])
  }

  lemma ListingIs(jobs: map<Jid, Job>, jids: seq<Jid>)
    requires AllIn(jids, jobs.Keys)
    ensures forall l :: l in Listing(jobs, jids) <==> l.jid in jids && jobs[l.jid] == l.job
  {
    hide Listing;
    forall l: Listed | l.jid in jids && jobs[l.jid] == l.job ensures l in Listing(jobs, jids) {
      var i :| 0 <= i < |jids| && jids[i] == l.jid;
      assert Listing(jobs, jids)[i] == l;
    }
  }

  lemma OutcomeIsEvent(c: Config, jobs: map<Jid, Job>, sources: map<Jid, Source>, jids: seq<Jid>)
    requires AllIn(jids, jobs.Keys)
    ensures IsEvent(c, jobs, sources, OutcomeOf(c, jobs, sources, jids))
  {
    hide Listing, StateIds;
    ListingIs(jobs, jids);
    var batch := Listing(jobs, jids);
    forall jid ensures jid in StateIds(c, batch) <==>
      exists l :: l in batch && ReportsFailure(c, l, jid)
    {
      StatesOfFailWatched(c, batch, jid);
    }
    forall jid ensures jid in jids <==> exists l :: l in batch && l.jid == jid {
      if jid in jids {
        assert Listed(jid, jobs[jid]) in batch;
      }
    }
  }

  lemma {:induction false} EventsAreEvents(c: Config, jobs: map<Jid, Job>, sources: map<Jid, Source>, gone: seq<Jid>,
                                           accepts: nat -> bool, offset: nat)
    requires AllIn(gone, jobs.Keys)
    ensures forall e :: e in Events(c, jobs, sources, gone, accepts, offset) ==> IsEvent(c, jobs, sources, e)
    decreases |gone| - offset
  {
    hide IsEvent, OutcomeOf;
    if offset < |gone| {
      var end := BatchEnd(gone, offset);
      assert AllIn(gone[offset..end], jobs.Keys);
      OutcomeIsEvent(c, jobs, sources, gone[offset..end]);
      EventsAreEvents(c, jobs, sources, gone, accepts, end);
    }
  }

  // ---------------------------------------------------------------------------
  // The class
  // ---------------------------------------------------------------------------

  class JobWatcher {
    const config: Config
    var jobs: map<Jid, Job>
    var order: seq<Jid>
    var sources: map<Jid, Source>
    ghost var log: seq<Entry>

    constructor (config: Config)
      ensures this.config == config && Value() == START && Valid()
    {
      this.config := config;
      jobs, order, sources, log := map[], [], map[], [];
    }

    ghost predicate Valid()
      reads this
    {
      Ordered(jobs, order)
    }

    ghost function Value(): State
      reads this
    {
      State(jobs, order, sources, log)
    }

    /** The job-outcome part of `process`. `accepts(k)` is whether `put_nowait`
        finds room for the batch at offset `k`. */
    method Process(s: Snapshot, accepts: nat -> bool) returns (events: seq<Outcome>)
      requires Valid()
      modifies this
      ensures Valid() && Value() == Step(config, old(Value()), s, accepts)
      ensures AllIn(Gone(old(order), Current(config, s.jobs)), old(jobs).Keys)
      ensures events == if config.Watches() && !s.errors
        then Events(config, old(jobs), old(sources), Gone(old(order), Current(config, s.jobs)), accepts, 0) else []
    {
      hide Events, Gone, Current, Accepted, Deferred, OutcomeOf, WatchedIds, HandedEntries, SeenEntries, Ordered;
      events := [];
      AcceptedAreTracked(Value(), Current(config, s.jobs), accepts);
      StepIsOrdered(config, Value(), s, accepts);
      if config.Watches() && !s.errors {
        var current, ids := CurrentJobs(config, s.jobs);
        var gone := GoneJobs(order, current);
        var deferred;
        events, deferred := HandOut(config, jobs, sources, gone, accepts);
        log := log + HandedEntries(jobs, Accepted(gone, accepts, 0)) + SeenEntries(config, s.jobs);
        jobs := current + (map jid | jid in jobs && jid in deferred :: jobs[jid]);
        order := Dedup(ids) + deferred;
        sources := s.sources + (map jid | jid in sources && jid in deferred :: sources[jid]);
      } else if s.errors {
        sources := map[];
      }
    }
  }

  method CurrentJobs(c: Config, listed: seq<Listed>) returns (current: map<Jid, Job>, ids: seq<Jid>)
    ensures current == Current(c, listed) && ids == WatchedIds(c, listed)
  {
    current, ids := map[], [];
    for i := 0 to |listed|
      invariant current == Current(c, listed[..i]) && ids == WatchedIds(c, listed[..i])
    {
      assert listed[..i + 1][..i] == listed[..i];
      if c.Watched(listed[i].job.user) {
        current := current[listed[i].jid := listed[i].job];
        ids := ids + [listed[i].jid];
      }
    }
    assert listed[..|listed|] == listed;
  }

  method GoneJobs(order: seq<Jid>, current: map<Jid, Job>) returns (gone: seq<Jid>)
    ensures gone == Gone(order, current)
  {
    gone := [];
    for i := 0 to |order|
      invariant gone == Gone(order[..i], current)
    {
      assert order[..i + 1][..i] == order[..i];
      if order[i] !in current {
        gone := gone + [order[i]];
      }
    }
    assert order[..|order|] == order;
  }

  lemma EventsStep(c: Config, jobs: map<Jid, Job>, sources: map<Jid, Source>, gone: seq<Jid>, accepts: nat -> bool, offset: nat)
    requires AllIn(gone, jobs.Keys) && offset < |gone|
    ensures AllIn(gone[offset..BatchEnd(gone, offset)], jobs.Keys)
    ensures Events(c, jobs, sources, gone, accepts, offset) ==
      (if accepts(offset) then [OutcomeOf(c, jobs, sources, gone[offset..BatchEnd(gone, offset)])] else [])
      + Events(c, jobs, sources, gone, accepts, offset + BATCH)
    ensures Deferred(gone, accepts, offset) ==
      (if accepts(offset) then [] else gone[offset..BatchEnd(gone, offset)]) + Deferred(gone, accepts, offset + BATCH)
  {
    hide OutcomeOf;
    var end := BatchEnd(gone, offset);
    assert end != offset + BATCH ==>
      Events(c, jobs, sources, gone, accepts, end) == [] && Deferred(gone, accepts, end) == [];
  }

  /** The loop over batches. */
  method HandOut(c: Config, jobs: map<Jid, Job>, sources: map<Jid, Source>, gone: seq<Jid>, accepts: nat -> bool)
    returns (events: seq<Outcome>, deferred: seq<Jid>)
    requires AllIn(gone, jobs.Keys)
    ensures events == Events(c, jobs, sources, gone, accepts, 0)
    ensures deferred == Deferred(gone, accepts, 0)
  {
    hide OutcomeOf, Events, Deferred;
    events, deferred := [], [];
    var offset := 0;
    while offset < |gone|
      invariant 0 <= offset
      invariant events + Events(c, jobs, sources, gone, accepts, offset) == Events(c, jobs, sources, gone, accepts, 0)
      invariant deferred + Deferred(gone, accepts, offset) == Deferred(gone, accepts, 0)
    {
      var end := if offset + BATCH < |gone| then offset + BATCH else |gone|;
      var batch := gone[offset..end];
      EventsStep(c, jobs, sources, gone, accepts, offset);
      ghost var laterEvents, laterJobs := Events(c, jobs, sources, gone, accepts, offset + BATCH), Deferred(gone, accepts, offset + BATCH);
      assert deferred + (batch + laterJobs) == deferred + batch + laterJobs;
      assert [] + laterEvents == laterEvents && [] + laterJobs == laterJobs;
      if accepts(offset) {
        ghost var e := [OutcomeOf(c, jobs, sources, batch)];
        assert events + (e + laterEvents) == events + e + laterEvents;
        events := events + [OutcomeOf(c, jobs, sources, batch)];
      } else {
        deferred := deferred + batch;
      }
      offset := offset + BATCH;
    }
    NoBatchLeft(c, jobs, sources, gone, accepts, offset);
  }

  lemma NoBatchLeft(c: Config, jobs: map<Jid, Job>, sources: map<Jid, Source>, gone: seq<Jid>, accepts: nat -> bool, offset: nat)
    requires AllIn(gone, jobs.Keys) && offset >= |gone|
    ensures Events(c, jobs, sources, gone, accepts, offset) == [] && Deferred(gone, accepts, offset) == []
  {
  }
}
