/**
How long a card has been wasted: allocated without a process (idle), or holding
memory without computing (parked).  Only fresh observations drive the timers;
stale ones show them without starting, extending or resetting a run.
*/
module WasteTimers {
  import opened Common
  import Nodelist
  import NodelistText

  type Key = string

  /** What the collector knows of a card; unreadable numbers are None. */
  datatype Gpu = Gpu(jobid: string, users: seq<string>, util: Option<real>, memTotal: Option<real>, memUsed: Option<real>)

  /** An observation of one card: by a live node, or a placeholder of a stale one. */
  datatype Observation = Fresh(key: Key, gpu: Gpu, now: real) | Stale(key: Key, jobid: string, now: real)

  /** Who wastes the card, since when. */
  datatype Run = Run(who: string, since: real)

  type Timers = map<Key, Run>

  /** `int(x)` */
  function Truncate(x: real): int {
    if x >= 0.0 then x.Floor else -((-x).Floor)
  }

  function JoinUsers(users: seq<string>): string {
    if users == [] then "" else if |users| == 1 then users[0] else users[0] + "," + JoinUsers(users[1..])
  }

  /** The job that idles on the card, if one does. */
  function IdleLabel(g: Gpu): Option<string> {
    if g.jobid != "" && g.users == [] then Some(g.jobid) else None
  }

  /** The owner who parks memory on the card, if one does. */
  function ParkedLabel(g: Gpu): Option<string> {
    var util := if g.util.Some? then g.util.value else -1.0;
    var vram := if g.memTotal.Some? && g.memTotal.value > 0.0 && g.memUsed.Some? then g.memUsed.value / g.memTotal.value else 0.0;
    var owner := if g.jobid != "" then g.jobid else JoinUsers(g.users);
    if 0.0 <= util <= 5.0 && vram >= 0.3 && owner != "" then Some(owner) else None
  }

  /** A fresh observation: go on with the same one's run, begin one, or end it. */
  function Tick(t: Timers, key: Key, who: Option<string>, now: real): Timers {
    if who.None? then t - {key}
    else if key in t && t[key].who == who.value then t
    else t[key := Run(who.value, now)]
  }

  function Elapsed(t: Timers, key: Key, now: real): int {
    if key in t then Truncate(now - t[key].since) else 0
  }

  datatype State = State(idle: Timers, parked: Timers)

  function Observe(s: State, o: Observation): State {
    match o
    case Fresh(key, gpu, now) => State(Tick(s.idle, key, IdleLabel(gpu), now), Tick(s.parked, key, ParkedLabel(gpu), now))
    case Stale(_, _, _) => s
  }

  /** The reported `idle_sec` and `parked_sec`. */
  function Report(s: State, o: Observation): (int, int) {
    match o
    case Fresh(key, _, now) =>
      var s' := Observe(s, o);
      (Elapsed(s'.idle, key, now), Elapsed(s'.parked, key, now))
    case Stale(key, jobid, now) =>
      (if key in s.idle && jobid != "" && s.idle[key].who == jobid then Elapsed(s.idle, key, now) else 0,
       Elapsed(s.parked, key, now))
  }

  class Tracker {
    var idleSince: Timers
    var parkedSince: Timers

    ghost function Now(): State
      reads this
    {
      State(idleSince, parkedSince)
    }

    constructor ()
      ensures Now() == State(map[], map[])
    {
      idleSince, parkedSince := map[], map[];
    }

    /** `_track_waste` */
    method TrackWaste(key: Key, gpu: Gpu, now: real) returns (idleSec: int, parkedSec: int)
      modifies this
      ensures Now() == Observe(old(Now()), Fresh(key, gpu, now))
      ensures (idleSec, parkedSec) == Report(old(Now()), Fresh(key, gpu, now))
    {
      if gpu.jobid != "" && gpu.users == [] {
        if key !in idleSince || idleSince[key].who != gpu.jobid {
          idleSince := idleSince[key := Run(gpu.jobid, now)];
        }
        idleSec := Truncate(now - idleSince[key].since);
      } else {
        idleSince := idleSince - {key};
        idleSec := 0;
      }
      var who := ParkedLabel(gpu);
      if who.Some? {
        if key !in parkedSince || parkedSince[key].who != who.value {
          parkedSince := parkedSince[key := Run(who.value, now)];
        }
        parkedSec := Truncate(now - parkedSince[key].since);
      } else {
        parkedSince := parkedSince - {key};
        parkedSec := 0;
      }
    }

    /** The rows of a stale node or of placeholders. */
    method ShowWaste(key: Key, jobid: string, now: real) returns (idleSec: int, parkedSec: int)
      ensures (idleSec, parkedSec) == Report(Now(), Stale(key, jobid, now))
    {
      idleSec := if key in idleSince && jobid != "" && idleSince[key].who == jobid then Truncate(now - idleSince[key].since) else 0;
      parkedSec := if key in parkedSince then Truncate(now - parkedSince[key].since) else 0;
    }
  }

  // ---------------------------------------------------------------------------
  // The timers against the history of observations
  // ---------------------------------------------------------------------------

  function After(history: seq<Observation>): State {
    if history == [] then State(map[], map[]) else Observe(After(history[..|history| - 1]), history[|history| - 1])
  }

  /** What one fresh observation of a card said: who wasted it, at what time. */
  datatype Label = Label(who: Option<string>, at: real)

  datatype Kind = Idle | Parked

  function LabelOf(kind: Kind, g: Gpu): Option<string> {
    if kind == Idle then IdleLabel(g) else ParkedLabel(g)
  }

  /** The fresh observations of one card, in order. */
  function FreshLabels(history: seq<Observation>, kind: Kind, key: Key): seq<Label> {
    if history == [] then []
    else
      var o := history[|history| - 1];
      FreshLabels(history[..|history| - 1], kind, key)
      + if o.Fresh? && o.key == key then [Label(LabelOf(kind, o.gpu), o.now)] else []
  }

  /** How many of the last labels in a row name `who`. */
  function TrailingRun(labels: seq<Label>, who: string): (n: nat)
    ensures n <= |labels|
    ensures forall i :: |labels| - n <= i < |labels| ==> labels[i].who == Some(who)
    ensures n < |labels| ==> labels[|labels| - n - 1].who != Some(who)
  {
    if labels == [] || labels[|labels| - 1].who != Some(who) then 0
    else 1 + TrailingRun(labels[..|labels| - 1], who)
  }

  function TimersOf(s: State, kind: Kind): Timers {
    if kind == Idle then s.idle else s.parked
  }

  function RunOfLabels(labels: seq<Label>): Option<Run> {
    if labels == [] || labels[|labels| - 1].who.None? then None
    else
      var who := labels[|labels| - 1].who.value;
      Some(Run(who, labels[|labels| - TrailingRun(labels, who)].at))
  }

  /** The run of a card as the history tells it: it begins with the first of the
      maximal row of last fresh observations that name the same one. */
  function RunOf(history: seq<Observation>, kind: Kind, key: Key): Option<Run> {
    RunOfLabels(FreshLabels(history, kind, key))
  }

  function RunAt(t: Timers, key: Key): Option<Run> {
    if key in t then Some(t[key]) else None
  }

  /** One more label goes on with a run of its own name or begins a new one. */
  lemma RunGoesOn(labels: seq<Label>, who: Option<string>, at: real)
    ensures var run := RunOfLabels(labels);
      RunOfLabels(labels + [Label(who, at)]) ==
        if who.None? then None else if run.Some? && run.value.who == who.value then run else Some(Run(who.value, at))
  {
    var more := labels + [Label(who, at)];
    assert more[..|more| - 1] == labels;
    if who.Some? {
      var n := TrailingRun(labels, who.value);
      assert TrailingRun(more, who.value) == 1 + n;
      assert n > 0 ==> more[|labels| - n] == labels[|labels| - n];
    }
  }

  lemma TickGoesOn(t: Timers, key: Key, who: Option<string>, now: real, other: Key)
    ensures var run := RunAt(t, key);
      RunAt(Tick(t, key, who, now), key) ==
        if who.None? then None else if run.Some? && run.value.who == who.value then run else Some(Run(who.value, now))
    ensures other != key ==> RunAt(Tick(t, key, who, now), other) == RunAt(t, other)
  {
  }

  /** After any history the timers hold exactly the maximal trailing runs of
      fresh observations; stale ones leave no trace in them. */
  lemma {:induction false} TimersAreRuns(history: seq<Observation>, kind: Kind, key: Key)
    ensures RunAt(TimersOf(After(history), kind), key) == RunOf(history, kind, key)
    decreases |history|
  {
    hide IdleLabel, ParkedLabel, RunOfLabels, RunAt, Tick;
    if history == [] {
      NoRunYet(kind, key);
    } else {
      var o, rest := history[|history| - 1], history[..|history| - 1];
      TimersAreRuns(rest, kind, key);
      var labels := FreshLabels(rest, kind, key);
      if o.Fresh? {
        TickGoesOn(TimersOf(After(rest), kind), o.key, LabelOf(kind, o.gpu), o.now, key);
      }
      if o.Fresh? && o.key == key {
        RunGoesOn(labels, LabelOf(kind, o.gpu), o.now);
      } else {
        assert labels + [] == labels;
      }
    }
  }

  lemma NoRunYet(kind: Kind, key: Key)
    ensures RunAt(TimersOf(After([]), kind), key) == RunOf([], kind, key)
  {
  }

  /** What is reported for a fresh observation: the time since its run began,
      for as long as the condition has held for the same one, and 0 otherwise. */
  lemma FreshReport(history: seq<Observation>, key: Key, gpu: Gpu, now: real)
    ensures var all := history + [Fresh(key, gpu, now)];
      var (idle, parked) := (RunOf(all, Idle, key), RunOf(all, Parked, key));
      && idle.Some? == IdleLabel(gpu).Some? && parked.Some? == ParkedLabel(gpu).Some?
      && Report(After(history), Fresh(key, gpu, now)) ==
        (if idle.Some? then Truncate(now - idle.value.since) else 0,
         if parked.Some? then Truncate(now - parked.value.since) else 0)
  {
    hide IdleLabel, ParkedLabel, RunOf, Tick, Truncate, After;
    var all, s := history + [Fresh(key, gpu, now)], After(history);
    OneMore(history, Fresh(key, gpu, now));
    TimersAreRuns(all, Idle, key);
    TimersAreRuns(all, Parked, key);
    TickGoesOn(s.idle, key, IdleLabel(gpu), now, key);
    TickGoesOn(s.parked, key, ParkedLabel(gpu), now, key);
  }

  lemma OneMore(history: seq<Observation>, o: Observation)
    ensures After(history + [o]) == Observe(After(history), o)
  {
    assert (history + [o])[..|history|] == history;
  }

  /** A stale row shows the last fresh run: the idle one only to the job it
      belongs to, the parked one as it stands. */
  lemma StaleReport(history: seq<Observation>, key: Key, jobid: string, now: real)
    ensures var (idle, parked) := (RunOf(history, Idle, key), RunOf(history, Parked, key));
      && After(history + [Stale(key, jobid, now)]) == After(history)
      && Report(After(history), Stale(key, jobid, now)) ==
        (if idle.Some? && jobid != "" && idle.value.who == jobid then Truncate(now - idle.value.since) else 0,
         if parked.Some? then Truncate(now - parked.value.since) else 0)
  {
    hide RunOf, Truncate, After;
    OneMore(history, Stale(key, jobid, now));
    TimersAreRuns(history, Idle, key);
    TimersAreRuns(history, Parked, key);
  }

  // ---------------------------------------------------------------------------
  // Who wastes a card, in the card's own numbers
  // ---------------------------------------------------------------------------

  /** Seconds are cut off towards 0. */
  lemma TruncateIs(x: real)
    ensures x >= 0.0 ==> Truncate(x) >= 0 && Truncate(x) as real <= x < Truncate(x) as real + 1.0
    ensures x <= 0.0 ==> Truncate(x) <= 0 && Truncate(x) as real - 1.0 < x <= Truncate(x) as real
  {
  }

  /** The users' names can be read off the label again. */
  lemma LabelNamesUsers(users: seq<string>)
    requires users != [] && forall i, k :: 0 <= i < |users| && 0 <= k < |users[i]| ==> users[i][k] != ','
    ensures Nodelist.SplitOn(JoinUsers(users), ',') == users
  {
    JoinUsersIs(users);
    NodelistText.SplitJoin(users, ',');
  }

  lemma {:induction false} JoinUsersIs(users: seq<string>)
    requires users != []
    ensures JoinUsers(users) == Nodelist.Join(users, ',')
  {
    if |users| > 1 {
      JoinUsersIs(users[1..]);
      assert users[0] + "," + JoinUsers(users[1..]) == users[0] + [','] + JoinUsers(users[1..]);
    }
  }

  /** At most 5 percent busy, by a number that could be read and is not negative. */
  ghost predicate IsQuiet(g: Gpu) {
    g.util.Some? && 0.0 <= g.util.value && g.util.value <= 5.0
  }

  /** At least three tenths of its memory in use, by numbers that could be read. */
  ghost predicate HoldsMemory(g: Gpu) {
    g.memTotal.Some? && g.memUsed.Some? && g.memTotal.value > 0.0 && 10.0 * g.memUsed.value >= 3.0 * g.memTotal.value
  }

  lemma RatioIs(used: real, total: real)
    requires total > 0.0
    ensures used / total >= 0.3 <==> 10.0 * used >= 3.0 * total
  {
    var r := used / total;
    assert r * total == used;
    if r >= 0.3 {
      assert (r - 0.3) * total >= 0.0;
    } else {
      assert (0.3 - r) * total > 0.0;
    }
  }

  /** A card is parked on exactly when it is quiet and holds memory, by its job
      or, when it has none, by the users of its processes. */
  lemma ParkedIff(g: Gpu, who: string)
    ensures ParkedLabel(g) == Some(who) <==>
      IsQuiet(g) && HoldsMemory(g) && who != "" && who == (if |g.jobid| > 0 then g.jobid else JoinUsers(g.users))
    ensures IdleLabel(g) == Some(who) <==> |g.users| == 0 && who == g.jobid && |who| > 0
  {
    if g.memTotal.Some? && g.memTotal.value > 0.0 && g.memUsed.Some? {
      RatioIs(g.memUsed.value, g.memTotal.value);
    }
  }
}
