/**
Node alerts and their debouncing: which observations of a node's health and of
its telemetry turn into messages, and how marks of sent messages are set,
released after a failed delivery, and pruned.
*/
module Notifier {
  import opened Common

  /** What is watched about a node: its scheduler state, or whether its telemetry
      is lost while the scheduler says it is up. */
  datatype Alert = Health | Telemetry

  datatype Subject = Subject(alert: Alert, name: string)

  /** The settings: which alerts are on, how long a condition must last, and the
      two debounce times. */
  datatype Config = Config(nodeHealth: bool, collectAlert: bool, downGrace: real, collectGrace: real,
                           debounce: real, nag: real)
  {
    function Grace(a: Alert): real {
      if a == Health then downGrace else collectGrace
    }

    function Gap(a: Alert): real {
      if a == Health then debounce else nag
    }

    /** Marks older than this are pruned. */
    function Keep(): real {
      (if debounce > nag then debounce else nag) * 2.0
    }
  }

  type Settings = c: Config | c.debounce >= 0.0 && c.nag >= 0.0
    witness Config(true, true, 180.0, 600.0, 1800.0, 21600.0)

  // ---------------------------------------------------------------------------
  // State, and the record of what happened
  // ---------------------------------------------------------------------------

  /** A node of a snapshot: `down` by its scheduler state, `failing` when its
      telemetry is stale or in error. */
  datatype Node = Node(name: string, down: bool, hasGpu: bool, failing: bool) {
    function HealthLook(): Look {
      Look(Subject(Health, name), down)
    }

    /** Lost telemetry counts only on a GPU node that the scheduler says is up. */
    function TelemetryLook(): Look {
      Look(Subject(Telemetry, name), hasGpu && failing && !down)
    }
  }

  /** One observation of a subject. */
  datatype Look = Look(who: Subject, bad: bool)

  datatype Failure = Failure(key: string, enqueued: real)

  /** `Alarm` is the message that a condition holds, `Recovered` that it is over. */
  datatype Entry =
    | Seen(who: Subject, at: real, bad: bool)
    | Granted(key: string, at: real, gap: real)
    | Released(key: string, enqueued: real)
    | Alarm(who: Subject, since: real, at: real)
    | Recovered(who: Subject, after: real, at: real)

  /** `confirmed` holds the start of the reported outage, 0 when there is none. */
  datatype State = State(confirmed: map<Subject, real>, pending: map<Subject, real>, lastSent: map<string, real>,
                         rollbacks: seq<Failure>, log: seq<Entry>)

  const START := State(map[], map[], map[], [], [])

  function Get<K>(m: map<K, real>, k: K): real {
    if k in m then m[k] else 0.0
  }

  function KeyOf(who: Subject): string {
    (if who.alert == Health then "down:" else "blind:") + who.name
  }

  // ---------------------------------------------------------------------------
  // Steps
  // ---------------------------------------------------------------------------

  predicate Allowed(st: State, key: string, now: real, gap: real) {
    now - Get(st.lastSent, key) >= gap
  }

  function Ask(st: State, key: string, now: real, gap: real): State {
    if Allowed(st, key, now, gap)
    then st.(lastSent := st.lastSent[key := now], log := st.log + [Granted(key, now, gap)])
    else st
  }

  function Release(st: State, f: Failure): State {
    st.(lastSent := if Get(st.lastSent, f.key) <= f.enqueued then st.lastSent - {f.key} else st.lastSent,
        log := st.log + [Released(f.key, f.enqueued)])
  }

  function ReleaseAll(st: State, fs: seq<Failure>): State {
    if fs == [] then st else Release(ReleaseAll(st, fs[..|fs| - 1]), fs[|fs| - 1])
  }

  function ObserveBad(st: State, who: Subject, now: real, c: Settings): State {
    var first := if who in st.pending then st.pending[who] else now;
    var seen := st.(pending := st.pending[who := first], log := st.log + [Seen(who, now, true)]);
    if Get(st.confirmed, who) == 0.0 && now - first >= c.Grace(who.alert) && Allowed(seen, KeyOf(who), now, c.Gap(who.alert)) then
      var asked := Ask(seen, KeyOf(who), now, c.Gap(who.alert));
      asked.(confirmed := asked.confirmed[who := first], log := asked.log + [Alarm(who, first, now)])
    else seen
  }

  function ObserveGood(st: State, who: Subject, now: real): State {
    var confirmed, seen := Get(st.confirmed, who), st.log + [Seen(who, now, false)];
    st.(pending := st.pending - {who}, confirmed := st.confirmed[who := 0.0],
        log := if confirmed != 0.0 then seen + [Recovered(who, now - confirmed, now)] else seen)
  }

  function Observe(st: State, n: Look, now: real, c: Settings): State {
    if n.bad then ObserveBad(st, n.who, now, c) else ObserveGood(st, n.who, now)
  }

  function ObserveAll(st: State, looks: seq<Look>, now: real, c: Settings): State {
    if looks == [] then st else Observe(ObserveAll(st, looks[..|looks| - 1], now, c), looks[|looks| - 1], now, c)
  }

  /** The observations of one snapshot: every node's health, then every node's telemetry. */
  function Looks(nodes: seq<Node>, c: Settings): seq<Look> {
    (if c.nodeHealth then HealthLooks(nodes) else []) + (if c.collectAlert then TelemetryLooks(nodes) else [])
  }

  function HealthLooks(nodes: seq<Node>): seq<Look> {
    seq(|nodes|, i requires 0 <= i < |nodes| => nodes[i].HealthLook())
  }

  function TelemetryLooks(nodes: seq<Node>): seq<Look> {
    seq(|nodes|, i requires 0 <= i < |nodes| => nodes[i].TelemetryLook())
  }

  lemma {:induction false} ObserveMore(st: State, a: seq<Look>, b: seq<Look>, now: real, c: Settings)
    ensures ObserveAll(st, a + b, now, c) == ObserveAll(ObserveAll(st, a, now, c), b, now, c)
    decreases |b|
  {
    if b == [] {
      assert a + b == a;
    } else {
      assert (a + b)[..|a + b| - 1] == a + b[..|b| - 1];
      ObserveMore(st, a, b[..|b| - 1], now, c);
    }
  }

  function Pruned(m: map<string, real>, now: real, c: Settings): map<string, real> {
    map k | k in m && m[k] >= now - c.Keep() :: m[k]
  }

  /** `Fails` is the delivery thread handing back a failed message, `Asks` any
      other alert asking for its slot, `Saves` the pruning in `_save`. */
  datatype Event =
    | Cycle(nodes: seq<Node>, now: real)
    | Fails(failure: Failure)
    | Asks(key: string, now: real, gap: real)
    | Saves(now: real)

  function Step(st: State, e: Event, c: Settings): State {
    match e
    case Cycle(nodes, now) => ObserveAll(ReleaseAll(st.(rollbacks := []), st.rollbacks), Looks(nodes, c), now, c)
    case Fails(failure) => st.(rollbacks := st.rollbacks + [failure])
    case Asks(key, now, gap) => Ask(st, key, now, gap)
    case Saves(now) => st.(lastSent := Pruned(st.lastSent, now, c))
  }

  function Run(events: seq<Event>, c: Settings): State {
    if events == [] then START
    else Step(Run(events[..|events| - 1], c), events[|events| - 1], c)
  }

  // ---------------------------------------------------------------------------
  // What the record says, read on its own
  // ---------------------------------------------------------------------------

  /** When the trailing run of bad observations of a subject began. */
  function BadSince(log: seq<Entry>, who: Subject): Option<real> {
    if log == [] then None
    else
      var before, e := BadSince(log[..|log| - 1], who), log[|log| - 1];
      if !e.Seen? || e.who != who then before
      else if !e.bad then None
      else if before.Some? then before
      else Some(e.at)
  }

  /** The start of the outage last reported for a subject and not yet over. */
  function Reported(log: seq<Entry>, who: Subject): Option<real> {
    if log == [] then None
    else
      var before, e := Reported(log[..|log| - 1], who), log[|log| - 1];
      if e.Alarm? && e.who == who then Some(e.since)
      else if e.Recovered? && e.who == who then None
      else before
  }

  /** The mark of a key when nothing is ever pruned. */
  function Mark(log: seq<Entry>, key: string): Option<real> {
    if log == [] then None
    else
      var before, e := Mark(log[..|log| - 1], key), log[|log| - 1];
      if e.Granted? && e.key == key then Some(e.at)
      else if e.Released? && e.key == key && before.Some? && before.value <= e.enqueued then None
      else before
  }

  function Or0(o: Option<real>): real {
    if o.Some? then o.value else 0.0
  }

  /** What is true of each entry, given the entries before it. */
  predicate EntryOk(before: seq<Entry>, e: Entry, c: Settings) {
    match e
    case Seen(_, _, _) => true
    case Released(_, _) => true
    case Granted(key, at, gap) => at - Or0(Mark(before, key)) >= gap
    case Alarm(who, since, at) =>
      Reported(before, who).None? && BadSince(before, who) == Some(since) && at - since >= c.Grace(who.alert)
    case Recovered(who, after, at) =>
      Reported(before, who) == Some(at - after) && BadSince(before, who).None?
  }

  ghost predicate LogOk(log: seq<Entry>, c: Settings) {
    forall i :: 0 <= i < |log| ==> EntryOk(log[..i], log[i], c)
  }

  lemma Grows(log: seq<Entry>, e: Entry, c: Settings)
    requires LogOk(log, c) && EntryOk(log, e, c)
    ensures LogOk(log + [e], c)
  {
    hide EntryOk;
    var more := log + [e];
    forall i | 0 <= i < |more| ensures EntryOk(more[..i], more[i], c) {
      if i < |log| {
        assert more[..i] == log[..i];
        assert EntryOk(log[..i], log[i], c);
      } else {
        assert more[..i] == log;
      }
    }
  }

  /** What an appended entry does to the readings. */
  lemma Reads(log: seq<Entry>, e: Entry, who: Subject)
    ensures Reported(log + [e], who) ==
      if e.Alarm? && e.who == who then Some(e.since)
      else if e.Recovered? && e.who == who then None
      else Reported(log, who)
    ensures BadSince(log + [e], who) ==
      if !e.Seen? || e.who != who then BadSince(log, who)
      else if !e.bad then None
      else if BadSince(log, who).Some? then BadSince(log, who)
      else Some(e.at)
  {
    assert (log + [e])[..|log|] == log;
  }

  lemma Marks(log: seq<Entry>, e: Entry, key: string)
    ensures Mark(log + [e], key) ==
      if e.Granted? && e.key == key then Some(e.at)
      else if e.Released? && e.key == key && Mark(log, key).Some? && Mark(log, key).value <= e.enqueued then None
      else Mark(log, key)
  {
    assert (log + [e])[..|log|] == log;
  }

  // ---------------------------------------------------------------------------
  // The state agrees with the record
  // ---------------------------------------------------------------------------

  ghost predicate SubjectOk(st: State, who: Subject) {
    && BadSince(st.log, who) == (if who in st.pending then Some(st.pending[who]) else None)
    && (who in st.pending ==> st.pending[who] > 0.0)
    && Reported(st.log, who) == (if Get(st.confirmed, who) != 0.0 then Some(st.confirmed[who]) else None)
  }

  /** A mark is the one in the record, or it was pruned when it was old. */
  predicate MarkOk(st: State, key: string, now: real, c: Settings) {
    var mark := Mark(st.log, key);
    && (key in st.lastSent ==> mark == Some(st.lastSent[key]) && st.lastSent[key] > 0.0)
    && (key !in st.lastSent && mark.Some? ==> 0.0 < mark.value < now - c.Keep())
  }

  ghost predicate Inv(st: State, now: real, c: Settings) {
    && (forall who :: SubjectOk(st, who))
    && (forall key :: MarkOk(st, key, now, c))
    && LogOk(st.log, c)
  }

  /** A pruned mark answers the same question the same way. */
  lemma SameAnswer(st: State, key: string, now: real, gap: real, c: Settings)
    requires MarkOk(st, key, now, c) && 0.0 <= gap <= c.Keep()
    ensures Allowed(st, key, now, gap) <==> now - Or0(Mark(st.log, key)) >= gap
  {
  }

  lemma Later(st: State, t: real, now: real, c: Settings)
    requires Inv(st, t, c) && t <= now
    ensures Inv(st, now, c)
  {
    hide SubjectOk, LogOk, Mark;
    forall key ensures MarkOk(st, key, now, c) {
      assert MarkOk(st, key, t, c);
    }
  }

  lemma AskKeeps(st: State, key: string, now: real, gap: real, c: Settings)
    requires Inv(st, now, c) && now > 0.0 && 0.0 <= gap <= c.Keep()
    ensures Inv(Ask(st, key, now, gap), now, c)
  {
    hide Mark, Reported, BadSince, LogOk;
    if Allowed(st, key, now, gap) {
      var st', e := Ask(st, key, now, gap), Granted(key, now, gap);
      SameAnswer(st, key, now, gap, c) by { assert MarkOk(st, key, now, c); }
      Grows(st.log, e, c);
      forall who ensures SubjectOk(st', who) {
        assert SubjectOk(st, who);
        Reads(st.log, e, who);
      }
      forall k ensures MarkOk(st', k, now, c) {
        assert MarkOk(st, k, now, c);
        Marks(st.log, e, k);
      }
    }
  }

  lemma ReleaseKeeps(st: State, f: Failure, now: real, c: Settings)
    requires Inv(st, now, c)
    ensures Inv(Release(st, f), now, c)
  {
    hide Mark, Reported, BadSince, LogOk;
    var st', e := Release(st, f), Released(f.key, f.enqueued);
    Grows(st.log, e, c);
    forall who ensures SubjectOk(st', who) {
      assert SubjectOk(st, who);
      Reads(st.log, e, who);
    }
    forall k ensures MarkOk(st', k, now, c) {
      assert MarkOk(st, k, now, c);
      Marks(st.log, e, k);
    }
  }

  lemma {:induction false} ReleasesKeep(st: State, fs: seq<Failure>, now: real, c: Settings)
    requires Inv(st, now, c)
    ensures Inv(ReleaseAll(st, fs), now, c)
  {
    hide Inv;
    if fs != [] {
      ReleasesKeep(st, fs[..|fs| - 1], now, c);
      ReleaseKeeps(ReleaseAll(st, fs[..|fs| - 1]), fs[|fs| - 1], now, c);
    }
  }

  /** Entries other than grants and releases leave the marks alone. */
  lemma MarksUntouched(st: State, st': State, e: Entry, now: real, c: Settings)
    requires forall key :: MarkOk(st, key, now, c)
    requires st'.lastSent == st.lastSent && st'.log == st.log + [e] && !e.Granted? && !e.Released?
    ensures forall key :: MarkOk(st', key, now, c)
  {
    hide Mark;
    forall key ensures MarkOk(st', key, now, c) {
      assert MarkOk(st, key, now, c);
      Marks(st.log, e, key);
    }
  }

  /** The first half of a bad observation: it is noted. */
  function Noted(st: State, who: Subject, now: real): State {
    var first := if who in st.pending then st.pending[who] else now;
    st.(pending := st.pending[who := first], log := st.log + [Seen(who, now, true)])
  }

  lemma NotedKeeps(st: State, who: Subject, now: real, c: Settings)
    requires Inv(st, now, c) && now > 0.0
    ensures Inv(Noted(st, who, now), now, c)
  {
    hide Mark, Reported, BadSince, LogOk, MarkOk;
    var st', e := Noted(st, who, now), Seen(who, now, true);
    Grows(st.log, e, c);
    MarksUntouched(st, st', e, now, c);
    forall x ensures SubjectOk(st', x) {
      assert SubjectOk(st, x);
      Reads(st.log, e, x);
    }
  }

  /** The second half: the outage is reported. */
  function Report(st: State, who: Subject, now: real): State
    requires who in st.pending
  {
    st.(confirmed := st.confirmed[who := st.pending[who]], log := st.log + [Alarm(who, st.pending[who], now)])
  }

  lemma ReportKeeps(st: State, who: Subject, now: real, c: Settings)
    requires Inv(st, now, c) && who in st.pending && Get(st.confirmed, who) == 0.0
    requires now - st.pending[who] >= c.Grace(who.alert)
    ensures Inv(Report(st, who, now), now, c)
  {
    hide Mark, Reported, BadSince, LogOk, MarkOk;
    var st', e := Report(st, who, now), Alarm(who, st.pending[who], now);
    assert SubjectOk(st, who);
    Grows(st.log, e, c);
    MarksUntouched(st, st', e, now, c);
    forall x ensures SubjectOk(st', x) {
      assert SubjectOk(st, x);
      Reads(st.log, e, x);
    }
  }

  lemma BadKeeps(st: State, who: Subject, now: real, c: Settings)
    requires Inv(st, now, c) && now > 0.0
    ensures Inv(ObserveBad(st, who, now, c), now, c)
  {
    hide Inv;
    NotedKeeps(st, who, now, c);
    var seen := Noted(st, who, now);
    if Get(st.confirmed, who) == 0.0 && now - seen.pending[who] >= c.Grace(who.alert)
       && Allowed(seen, KeyOf(who), now, c.Gap(who.alert)) {
      AskKeeps(seen, KeyOf(who), now, c.Gap(who.alert), c);
      ReportKeeps(Ask(seen, KeyOf(who), now, c.Gap(who.alert)), who, now, c);
    }
  }

  /** Whether an alarm is due, by the record alone. */
  predicate Due(log: seq<Entry>, who: Subject, now: real, c: Settings) {
    && Reported(log, who).None?
    && now - Or0(BadSince(log, who)) >= c.Grace(who.alert)
    && now - Or0(Mark(log, KeyOf(who))) >= c.Gap(who.alert)
  }

  /** A bad observation posts an alarm exactly when one is due. */
  lemma ReportedWhenDue(st: State, who: Subject, now: real, c: Settings)
    requires Inv(st, now, c) && now > 0.0
    ensures var log := st.log + [Seen(who, now, true)]; var after := ObserveBad(st, who, now, c).log;
      if Due(log, who, now, c)
      then after == log + [Granted(KeyOf(who), now, c.Gap(who.alert)), Alarm(who, BadSince(log, who).value, now)]
      else after == log
  {
    hide Mark, Reported, BadSince, LogOk, KeyOf;
    var seen := Noted(st, who, now);
    NotedKeeps(st, who, now, c);
    assert SubjectOk(seen, who);
    SameAnswer(seen, KeyOf(who), now, c.Gap(who.alert), c) by { assert MarkOk(seen, KeyOf(who), now, c); }
  }

  /** A node that is down is reported after the down grace, under its `down:` key
      at most once per debounce time. */
  lemma DownReportedWhenDue(st: State, name: string, now: real, c: Settings)
    requires Inv(st, now, c) && now > 0.0
    ensures var who := Subject(Health, name);
      var log := st.log + [Seen(who, now, true)]; var after := ObserveBad(st, who, now, c).log;
      if Reported(log, who).None? && now - Or0(BadSince(log, who)) >= c.downGrace && now - Or0(Mark(log, "down:" + name)) >= c.debounce
      then after == log + [Granted("down:" + name, now, c.debounce), Alarm(who, BadSince(log, who).value, now)]
      else after == log
  {
    hide Inv, Mark, Reported, BadSince, ObserveBad;
    ReportedWhenDue(st, Subject(Health, name), now, c);
  }

  /** A node whose telemetry is lost is reported after the telemetry grace, under
      its `blind:` key at most once per nag time. */
  lemma BlindReportedWhenDue(st: State, name: string, now: real, c: Settings)
    requires Inv(st, now, c) && now > 0.0
    ensures var who := Subject(Telemetry, name);
      var log := st.log + [Seen(who, now, true)]; var after := ObserveBad(st, who, now, c).log;
      if Reported(log, who).None? && now - Or0(BadSince(log, who)) >= c.collectGrace && now - Or0(Mark(log, "blind:" + name)) >= c.nag
      then after == log + [Granted("blind:" + name, now, c.nag), Alarm(who, BadSince(log, who).value, now)]
      else after == log
  {
    hide Inv, Mark, Reported, BadSince, ObserveBad;
    ReportedWhenDue(st, Subject(Telemetry, name), now, c);
  }

  /** The observations in a record. */
  function Sightings(log: seq<Entry>): seq<Entry> {
    if log == [] then []
    else
      var before, e := Sightings(log[..|log| - 1]), log[|log| - 1];
      if e.Seen? then before + [e] else before
  }

  lemma SightsOne(log: seq<Entry>, e: Entry)
    ensures Sightings(log + [e]) == Sightings(log) + if e.Seen? then [e] else []
  {
    assert (log + [e])[..|log|] == log;
  }

  lemma BadIsSeen(st: State, who: Subject, now: real, c: Settings)
    ensures Sightings(ObserveBad(st, who, now, c).log) == Sightings(st.log) + [Seen(who, now, true)]
  {
    hide Sightings;
    var log := st.log + [Seen(who, now, true)];
    var granted := log + [Granted(KeyOf(who), now, c.Gap(who.alert))];
    var first := if who in st.pending then st.pending[who] else now;
    SightsOne(st.log, Seen(who, now, true));
    SightsOne(log, Granted(KeyOf(who), now, c.Gap(who.alert)));
    SightsOne(granted, Alarm(who, first, now));
  }

  lemma GoodIsSeen(st: State, who: Subject, now: real)
    ensures Sightings(ObserveGood(st, who, now).log) == Sightings(st.log) + [Seen(who, now, false)]
  {
    hide Sightings;
    SightsOne(st.log, Seen(who, now, false));
    SightsOne(st.log + [Seen(who, now, false)], Recovered(who, now - Get(st.confirmed, who), now));
  }

  lemma {:induction false} LooksAreSeen(st: State, looks: seq<Look>, now: real, c: Settings) returns (seen: seq<Entry>)
    ensures |seen| == |looks| && forall i :: 0 <= i < |looks| ==> seen[i] == Seen(looks[i].who, now, looks[i].bad)
    ensures Sightings(ObserveAll(st, looks, now, c).log) == Sightings(st.log) + seen
  {
    hide Sightings, ObserveBad, ObserveGood;
    if looks == [] {
      seen := [];
    } else {
      var before, n := ObserveAll(st, looks[..|looks| - 1], now, c), looks[|looks| - 1];
      seen := LooksAreSeen(st, looks[..|looks| - 1], now, c);
      seen := seen + [Seen(n.who, now, n.bad)];
      BadIsSeen(before, n.who, now, c);
      GoodIsSeen(before, n.who, now);
    }
  }

  lemma {:induction false} ReleasesAreUnseen(st: State, fs: seq<Failure>)
    ensures Sightings(ReleaseAll(st, fs).log) == Sightings(st.log)
  {
    if fs != [] {
      var before, f := ReleaseAll(st, fs[..|fs| - 1]), fs[|fs| - 1];
      ReleasesAreUnseen(st, fs[..|fs| - 1]);
      SightsOne(before.log, Released(f.key, f.enqueued));
    }
  }

  /** What is seen of one node: its scheduler state when health alerts are on, and
      telemetry lost on a GPU node that is up when telemetry alerts are on. */
  ghost predicate Sees(seen: seq<Entry>, nodes: seq<Node>, now: real, c: Settings) {
    var first := if c.nodeHealth then |nodes| else 0;
    && |seen| == first + (if c.collectAlert then |nodes| else 0)
    && (c.nodeHealth ==> forall i :: 0 <= i < |nodes| ==>
      seen[i] == Seen(Subject(Health, nodes[i].name), now, nodes[i].down))
    && (c.collectAlert ==> forall i :: 0 <= i < |nodes| ==>
      seen[first + i] == Seen(Subject(Telemetry, nodes[i].name), now, nodes[i].failing && nodes[i].hasGpu && !nodes[i].down))
  }

  /** A snapshot observes every node's health and then every node's telemetry, in
      order and once each. */
  lemma CycleSees(st: State, nodes: seq<Node>, now: real, c: Settings)
    ensures exists seen :: Sees(seen, nodes, now, c) && Sightings(Step(st, Cycle(nodes, now), c).log) == Sightings(st.log) + seen
  {
    hide Sightings, ObserveAll, ReleaseAll;
    ReleasesAreUnseen(st.(rollbacks := []), st.rollbacks);
    var seen := LooksAreSeen(ReleaseAll(st.(rollbacks := []), st.rollbacks), Looks(nodes, c), now, c);
    assert Sees(seen, nodes, now, c);
  }

  lemma GoodKeeps(st: State, who: Subject, now: real, c: Settings)
    requires Inv(st, now, c)
    ensures Inv(ObserveGood(st, who, now), now, c)
  {
    hide Mark, Reported, BadSince, LogOk, MarkOk;
    var confirmed := Get(st.confirmed, who);
    var e, r := Seen(who, now, false), Recovered(who, now - confirmed, now);
    var noted := st.(pending := st.pending - {who}, log := st.log + [e]);
    Grows(st.log, e, c);
    MarksUntouched(st, noted, e, now, c);
    forall x ensures SubjectOk(noted, x) {
      assert SubjectOk(st, x);
      Reads(st.log, e, x);
    }
    var st' := ObserveGood(st, who, now);
    if confirmed != 0.0 {
      assert SubjectOk(noted, who);
      Grows(noted.log, r, c);
      MarksUntouched(noted, st', r, now, c);
    } else {
      forall key ensures MarkOk(st', key, now, c) {
        assert MarkOk(noted, key, now, c);
        MarkOfLog(noted, st', key, now, c);
      }
    }
    forall x ensures SubjectOk(st', x) {
      assert SubjectOk(noted, x);
      Reads(noted.log, r, x);
    }
  }

  lemma {:induction false} ObservationsKeep(st: State, looks: seq<Look>, now: real, c: Settings)
    requires Inv(st, now, c) && now > 0.0
    ensures Inv(ObserveAll(st, looks, now, c), now, c)
  {
    hide Inv, ObserveBad, ObserveGood;
    if looks != [] {
      var before, n := ObserveAll(st, looks[..|looks| - 1], now, c), looks[|looks| - 1];
      ObservationsKeep(st, looks[..|looks| - 1], now, c);
      if n.bad {
        BadKeeps(before, n.who, now, c);
      } else {
        GoodKeeps(before, n.who, now, c);
      }
    }
  }

  lemma PruneKeeps(st: State, now: real, c: Settings)
    requires Inv(st, now, c)
    ensures Inv(st.(lastSent := Pruned(st.lastSent, now, c)), now, c)
  {
    hide Mark, Reported, BadSince, LogOk;
    var st' := st.(lastSent := Pruned(st.lastSent, now, c));
    forall who ensures SubjectOk(st', who) {
      assert SubjectOk(st, who);
    }
    forall key ensures MarkOk(st', key, now, c) {
      assert MarkOk(st, key, now, c);
    }
  }

  // ---------------------------------------------------------------------------
  // Every run
  // ---------------------------------------------------------------------------

  function Clock(e: Event, t: real): real {
    if e.Fails? then t else e.now
  }

  /** The clock after a run, which starts after 0 and never goes back; alerts ask
      for at most twice the longer gap. */
  function Now(events: seq<Event>): real {
    if events == [] then 0.0 else Clock(events[|events| - 1], Now(events[..|events| - 1]))
  }

  predicate Orderly(events: seq<Event>, c: Settings) {
    events == [] ||
    var e, rest := events[|events| - 1], events[..|events| - 1];
    && Orderly(rest, c)
    && Clock(e, Now(rest)) >= Now(rest)
    && (!e.Fails? ==> e.now > 0.0)
    && (e.Asks? ==> 0.0 <= e.gap <= c.Keep())
  }

  lemma StartIsOk(c: Settings)
    ensures Inv(START, 0.0, c)
  {
  }

  lemma StepKeeps(st: State, e: Event, t: real, c: Settings)
    requires Inv(st, t, c) && Clock(e, t) >= t && (!e.Fails? ==> e.now > 0.0)
    requires e.Asks? ==> 0.0 <= e.gap <= c.Keep()
    ensures Inv(Step(st, e, c), Clock(e, t), c)
  {
    hide SubjectOk, MarkOk, LogOk, ObserveAll, ReleaseAll, Pruned, Ask;
    Later(st, t, Clock(e, t), c);
    match e
    case Cycle(nodes, now) =>
      forall x ensures SubjectOk(st.(rollbacks := []), x) { assert SubjectOk(st, x); PlainSubject(st, [], x); }
      forall x ensures MarkOk(st.(rollbacks := []), x, now, c) { assert MarkOk(st, x, now, c); PlainMark(st, [], x, now, c); }
      ReleasesKeep(st.(rollbacks := []), st.rollbacks, now, c);
      ObservationsKeep(ReleaseAll(st.(rollbacks := []), st.rollbacks), Looks(nodes, c), now, c);
    case Fails(f) =>
      var more := st.rollbacks + [f];
      forall x ensures SubjectOk(st.(rollbacks := more), x) { assert SubjectOk(st, x); PlainSubject(st, more, x); }
      forall x ensures MarkOk(st.(rollbacks := more), x, t, c) { assert MarkOk(st, x, t, c); PlainMark(st, more, x, t, c); }
    case Asks(key, now, gap) => AskKeeps(st, key, now, gap, c);
    case Saves(now) => PruneKeeps(st, now, c);
  }

  lemma PlainSubject(st: State, q: seq<Failure>, who: Subject)
    ensures SubjectOk(st.(rollbacks := q), who) == SubjectOk(st, who)
  {
  }

  lemma PlainMark(st: State, q: seq<Failure>, key: string, now: real, c: Settings)
    ensures MarkOk(st.(rollbacks := q), key, now, c) == MarkOk(st, key, now, c)
  {
  }

  /** Over every run: an alarm is posted only when none is open, after the subject
      has been bad, at every observation, for at least its grace period; a
      recovered message only closes an open one, at a good observation; a slot is
      granted only the gap after its unreleased mark. */
  lemma {:induction false} RunIsOk(events: seq<Event>, c: Settings)
    requires Orderly(events, c)
    ensures Inv(Run(events, c), Now(events), c)
  {
    hide Inv, Step;
    if events == [] {
      StartIsOk(c);
    } else {
      var k := |events| - 1;
      RunIsOk(events[..k], c);
      StepKeeps(Run(events[..k], c), events[k], Now(events[..k]), c);
    }
  }

  // ---------------------------------------------------------------------------
  // Consequences
  // ---------------------------------------------------------------------------

  predicate IsMessage(e: Entry, who: Subject) {
    (e.Alarm? || e.Recovered?) && e.who == who
  }

  lemma {:induction false} ReportedFollows(log: seq<Entry>, i: nat, j: nat, who: Subject)
    requires i <= j <= |log| && forall k :: i <= k < j ==> !IsMessage(log[k], who)
    ensures Reported(log[..j], who) == Reported(log[..i], who)
    decreases j
  {
    if i < j {
      ReportedFollows(log, i, j - 1, who);
      assert log[..j][..j - 1] == log[..j - 1];
    }
  }

  lemma {:induction false} NoMessageYet(log: seq<Entry>, j: nat, who: Subject)
    requires j <= |log| && forall k :: 0 <= k < j ==> !IsMessage(log[k], who)
    ensures Reported(log[..j], who) == None
  {
    ReportedFollows(log, 0, j, who);
  }

  /** Per node and alert, the first message is an alarm, and two messages in a
      row are never of the same kind. */
  lemma MessagesAlternate(log: seq<Entry>, c: Settings, who: Subject, i: int, j: nat)
    requires LogOk(log, c) && -1 <= i < j < |log| && IsMessage(log[j], who)
    requires i >= 0 ==> IsMessage(log[i], who)
    requires forall k :: i < k < j ==> !IsMessage(log[k], who)
    ensures if i < 0 then log[j].Alarm? else log[j].Alarm? != log[i].Alarm?
  {
    assert EntryOk(log[..j], log[j], c);
    if i < 0 {
      NoMessageYet(log, j, who);
    } else {
      ReportedFollows(log, i + 1, j, who);
      assert log[..i + 1] == log[..i] + [log[i]];
      Reads(log[..i], log[i], who);
    }
  }

  predicate SeenGood(e: Entry, who: Subject) {
    e.Seen? && e.who == who && !e.bad
  }

  predicate SeenBad(e: Entry, who: Subject, at: real) {
    e == Seen(who, at, true)
  }

  /** Observation `k` was bad, at `at`, and no later one of the subject was good. */
  ghost predicate BadFrom(log: seq<Entry>, who: Subject, k: nat, at: real) {
    k < |log| && SeenBad(log[k], who, at) && forall j :: k <= j < |log| ==> !SeenGood(log[j], who)
  }

  /** Observation `k` was good, and no later one of the subject was bad. */
  ghost predicate GoodFrom(log: seq<Entry>, who: Subject, k: nat) {
    k < |log| && SeenGood(log[k], who) && forall j :: k <= j < |log| && log[j].Seen? && log[j].who == who ==> !log[j].bad
  }

  lemma {:induction false} TrailingRun(log: seq<Entry>, who: Subject) returns (k: nat)
    requires BadSince(log, who).Some?
    ensures BadFrom(log, who, k, BadSince(log, who).value)
  {
    var n := |log| - 1;
    if BadSince(log[..n], who).Some? {
      k := TrailingRun(log[..n], who);
      forall j | k <= j < |log| ensures !SeenGood(log[j], who) {
        if j < n { assert log[j] == log[..n][j]; }
      }
    } else {
      k := n;
    }
  }

  lemma {:induction false} EndsGood(log: seq<Entry>, who: Subject, k: nat) returns (j: nat)
    requires BadSince(log, who).None? && k < |log| && log[k].Seen? && log[k].who == who
    ensures GoodFrom(log, who, j)
  {
    var n := |log| - 1;
    if SeenGood(log[n], who) {
      j := n;
    } else {
      assert log[..n][k] == log[k];
      j := EndsGood(log[..n], who, k);
      forall i | j <= i < |log| && log[i].Seen? && log[i].who == who ensures !log[i].bad {
        if i < n { assert log[i] == log[..n][i]; }
      }
    }
  }

  /** An alarm comes at least the grace period after a bad observation of its
      subject with no good one since. */
  lemma AlarmAfterGrace(log: seq<Entry>, c: Settings, i: nat)
    requires LogOk(log, c) && i < |log| && log[i].Alarm?
    ensures exists k: nat :: BadFrom(log[..i], log[i].who, k, log[i].since)
    ensures log[i].at - log[i].since >= c.Grace(log[i].who.alert)
  {
    assert EntryOk(log[..i], log[i], c);
    var k := TrailingRun(log[..i], log[i].who);
  }

  lemma {:induction false} ReportedBy(log: seq<Entry>, who: Subject) returns (k: nat)
    requires Reported(log, who).Some?
    ensures k < |log| && log[k].Alarm? && log[k].who == who && log[k].since == Reported(log, who).value
  {
    var n := |log| - 1;
    if log[n].Alarm? && log[n].who == who {
      k := n;
    } else {
      k := ReportedBy(log[..n], who);
      assert log[k] == log[..n][k];
    }
  }

  /** A recovered message comes after a good observation with no bad one since, and gives the time since the outage it closes began. */
  lemma RecoveredAfterGood(log: seq<Entry>, c: Settings, i: nat)
    requires LogOk(log, c) && i < |log| && log[i].Recovered?
    ensures exists k: nat :: GoodFrom(log[..i], log[i].who, k)
    ensures exists k :: 0 <= k < i && log[k].Alarm? && log[k].who == log[i].who && log[i].after == log[i].at - log[k].since
  {
    var who, before := log[i].who, log[..i];
    assert EntryOk(before, log[i], c);
    var d := ReportedBy(before, who);
    assert log[d] == before[d];
    assert EntryOk(log[..d], log[d], c);
    var k := TrailingRun(log[..d], who);
    assert log[..d][k] == before[k];
    var u := EndsGood(before, who, k);
  }

  lemma {:induction false} StillReported(log: seq<Entry>, c: Settings, i: nat, j: nat, who: Subject)
    requires LogOk(log, c) && i < j <= |log| && log[i].Alarm? && log[i].who == who
    requires forall k :: i < k < j ==> !SeenGood(log[k], who)
    ensures Reported(log[..j], who).Some? && BadSince(log[..j], who).Some?
    decreases j
  {
    if j == i + 1 {
      assert EntryOk(log[..i], log[i], c);
      assert log[..j] == log[..i] + [log[i]];
      Reads(log[..i], log[i], who);
    } else {
      StillReported(log, c, i, j - 1, who);
      assert EntryOk(log[..j - 1], log[j - 1], c);
      assert log[..j] == log[..j - 1] + [log[j - 1]];
      Reads(log[..j - 1], log[j - 1], who);
    }
  }

  /** A failed delivery does not make an alarm fire again: between two of them
      the subject has been seen good. */
  lemma AlarmFiresOncePerOutage(log: seq<Entry>, c: Settings, i: nat, j: nat)
    requires LogOk(log, c) && i < j < |log| && log[i].Alarm? && log[j].Alarm? && log[i].who == log[j].who
    ensures exists k :: i < k < j && SeenGood(log[k], log[i].who)
  {
    assert EntryOk(log[..j], log[j], c);
    if forall k :: i < k < j ==> !SeenGood(log[k], log[i].who) {
      StillReported(log, c, i, j, log[i].who);
      assert false;
    }
  }

  predicate Frees(e: Entry, key: string, at: real) {
    e.Released? && e.key == key && e.enqueued >= at
  }

  lemma {:induction false} MarkStays(log: seq<Entry>, c: Settings, i: nat, j: nat, key: string)
    requires LogOk(log, c) && i < j <= |log| && log[i].Granted? && log[i].key == key
    requires forall k :: 0 <= k < |log| && log[k].Granted? ==> log[k].gap >= 0.0
    requires forall k :: i < k < j ==> !Frees(log[k], key, log[i].at)
    ensures Mark(log[..j], key).Some? && Mark(log[..j], key).value >= log[i].at
    decreases j
  {
    assert log[..j] == log[..j - 1] + [log[j - 1]];
    Marks(log[..j - 1], log[j - 1], key);
    if j > i + 1 {
      MarkStays(log, c, i, j - 1, key);
      assert EntryOk(log[..j - 1], log[j - 1], c);
    }
  }

  /** Two grants of one key are the later one's gap apart, unless in between a
      failed delivery released a message enqueued at or after the first. */
  lemma GrantsKeepTheirDistance(log: seq<Entry>, c: Settings, i: nat, j: nat)
    requires LogOk(log, c) && i < j < |log| && log[i].Granted? && log[j].Granted? && log[i].key == log[j].key
    requires forall k :: 0 <= k < |log| && log[k].Granted? ==> log[k].gap >= 0.0
    ensures log[j].at - log[i].at >= log[j].gap || exists k :: i < k < j && Frees(log[k], log[i].key, log[i].at)
  {
    if forall k :: i < k < j ==> !Frees(log[k], log[i].key, log[i].at) {
      MarkStays(log, c, i, j, log[i].key);
      assert EntryOk(log[..j], log[j], c);
    }
  }

  /** Releasing a message enqueued before the current mark was set leaves that
      mark, and every other key's, in place. */
  lemma ReleaseSparesNewerMarks(st: State, fs: seq<Failure>, key: string)
    requires key in st.lastSent && st.lastSent[key] > 0.0
    requires forall f :: f in fs && f.key == key ==> f.enqueued < st.lastSent[key]
    ensures key in ReleaseAll(st, fs).lastSent && ReleaseAll(st, fs).lastSent[key] == st.lastSent[key]
    decreases |fs|
  {
    if fs != [] {
      assert fs[|fs| - 1] in fs;
      ReleaseSparesNewerMarks(st, fs[..|fs| - 1], key);
    }
  }

  // ---------------------------------------------------------------------------
  // Pruning is invisible
  // ---------------------------------------------------------------------------

  function WithoutSaves(events: seq<Event>): seq<Event> {
    if events == [] then []
    else
      var rest, e := WithoutSaves(events[..|events| - 1]), events[|events| - 1];
      if e.Saves? then rest else rest + [e]
  }

  /** Equal but for marks, which each agree with the common record. */
  ghost predicate Twins(a: State, b: State, now: real, c: Settings) {
    && a == b.(lastSent := a.lastSent)
    && (forall key :: MarkOk(a, key, now, c))
    && (forall key :: MarkOk(b, key, now, c))
  }

  lemma AskTwins(a: State, b: State, key: string, now: real, gap: real, c: Settings)
    requires Twins(a, b, now, c) && now > 0.0 && 0.0 <= gap <= c.Keep()
    ensures Twins(Ask(a, key, now, gap), Ask(b, key, now, gap), now, c)
    ensures Allowed(a, key, now, gap) <==> Allowed(b, key, now, gap)
  {
    hide Mark;
    SameAnswer(a, key, now, gap, c) by { assert MarkOk(a, key, now, c); }
    SameAnswer(b, key, now, gap, c) by { assert MarkOk(b, key, now, c); }
    var a', b' := Ask(a, key, now, gap), Ask(b, key, now, gap);
    if Allowed(a, key, now, gap) {
      AskMarks(a, key, now, gap, c);
      AskMarks(b, key, now, gap, c);
    }
  }

  lemma AskMarks(st: State, key: string, now: real, gap: real, c: Settings)
    requires now > 0.0 && Allowed(st, key, now, gap) && forall k :: MarkOk(st, k, now, c)
    ensures forall k :: MarkOk(Ask(st, key, now, gap), k, now, c)
  {
    hide Mark;
    forall k ensures MarkOk(Ask(st, key, now, gap), k, now, c) {
      assert MarkOk(st, k, now, c);
      Marks(st.log, Granted(key, now, gap), k);
    }
  }

  lemma ReleaseMarks(st: State, f: Failure, now: real, c: Settings)
    requires forall k :: MarkOk(st, k, now, c)
    ensures forall k :: MarkOk(Release(st, f), k, now, c)
  {
    hide Mark;
    forall k ensures MarkOk(Release(st, f), k, now, c) {
      assert MarkOk(st, k, now, c);
      Marks(st.log, Released(f.key, f.enqueued), k);
    }
  }

  lemma {:induction false} ReleaseTwins(a: State, b: State, fs: seq<Failure>, now: real, c: Settings)
    requires Twins(a, b, now, c)
    ensures Twins(ReleaseAll(a, fs), ReleaseAll(b, fs), now, c)
  {
    hide MarkOk;
    if fs != [] {
      var k := |fs| - 1;
      ReleaseTwins(a, b, fs[..k], now, c);
      ReleaseMarks(ReleaseAll(a, fs[..k]), fs[k], now, c);
      ReleaseMarks(ReleaseAll(b, fs[..k]), fs[k], now, c);
    }
  }

  lemma ObserveTwins(a: State, b: State, n: Look, now: real, c: Settings)
    requires Twins(a, b, now, c) && now > 0.0
    ensures Twins(Observe(a, n, now, c), Observe(b, n, now, c), now, c)
  {
    hide MarkOk, Ask, Allowed;
    var e, gap := Seen(n.who, now, n.bad), c.Gap(n.who.alert);
    if n.bad {
      var a', b' := Noted(a, n.who, now), Noted(b, n.who, now);
      MarksUntouched(a, a', e, now, c);
      MarksUntouched(b, b', e, now, c);
      AskTwins(a', b', KeyOf(n.who), now, gap, c);
      if Get(a.confirmed, n.who) == 0.0 && now - a'.pending[n.who] >= c.Grace(n.who.alert)
         && Allowed(a', KeyOf(n.who), now, gap) {
        var a'', b'' := Ask(a', KeyOf(n.who), now, gap), Ask(b', KeyOf(n.who), now, gap);
        AskLeaves(a', KeyOf(n.who), now, gap);
        AskLeaves(b', KeyOf(n.who), now, gap);
        var r := Alarm(n.who, a'.pending[n.who], now);
        MarksUntouched(a'', Report(a'', n.who, now), r, now, c);
        MarksUntouched(b'', Report(b'', n.who, now), r, now, c);
      }
    } else {
      GoodMarks(a, n.who, now, c);
      GoodMarks(b, n.who, now, c);
    }
  }

  lemma AskLeaves(st: State, key: string, now: real, gap: real)
    ensures Ask(st, key, now, gap).pending == st.pending && Ask(st, key, now, gap).confirmed == st.confirmed
  {
  }

  lemma GoodMarks(st: State, who: Subject, now: real, c: Settings)
    requires forall key :: MarkOk(st, key, now, c)
    ensures forall key :: MarkOk(ObserveGood(st, who, now), key, now, c)
  {
    hide MarkOk;
    var st' := ObserveGood(st, who, now);
    var noted := st.(log := st.log + [Seen(who, now, false)]);
    MarksUntouched(st, noted, Seen(who, now, false), now, c);
    if Get(st.confirmed, who) != 0.0 {
      MarksUntouched(noted, st', Recovered(who, now - Get(st.confirmed, who), now), now, c);
    } else {
      forall key ensures MarkOk(st', key, now, c) {
        assert MarkOk(noted, key, now, c);
        MarkOfLog(noted, st', key, now, c);
      }
    }
  }

  lemma MarkOfLog(a: State, b: State, key: string, now: real, c: Settings)
    requires a.log == b.log && a.lastSent == b.lastSent
    ensures MarkOk(a, key, now, c) == MarkOk(b, key, now, c)
  {
  }

  lemma {:induction false} ObservationTwins(a: State, b: State, looks: seq<Look>, now: real, c: Settings)
    requires Twins(a, b, now, c) && now > 0.0
    ensures Twins(ObserveAll(a, looks, now, c), ObserveAll(b, looks, now, c), now, c)
  {
    hide Twins, Observe;
    if looks != [] {
      var k := |looks| - 1;
      ObservationTwins(a, b, looks[..k], now, c);
      ObserveTwins(ObserveAll(a, looks[..k], now, c), ObserveAll(b, looks[..k], now, c), looks[k], now, c);
    }
  }

  lemma TwinsLater(a: State, b: State, t: real, now: real, c: Settings)
    requires Twins(a, b, t, c) && t <= now
    ensures Twins(a, b, now, c)
  {
    hide Mark;
    forall key ensures MarkOk(a, key, now, c) && MarkOk(b, key, now, c) {
      assert MarkOk(a, key, t, c) && MarkOk(b, key, t, c);
    }
  }

  lemma QueueTwins(a: State, b: State, q: seq<Failure>, now: real, c: Settings)
    requires Twins(a, b, now, c)
    ensures Twins(a.(rollbacks := q), b.(rollbacks := q), now, c)
  {
    hide MarkOk;
    forall key ensures MarkOk(a.(rollbacks := q), key, now, c) && MarkOk(b.(rollbacks := q), key, now, c) {
      assert MarkOk(a, key, now, c) && MarkOk(b, key, now, c);
      MarkOfLog(a, a.(rollbacks := q), key, now, c);
      MarkOfLog(b, b.(rollbacks := q), key, now, c);
    }
  }

  lemma SaveTwins(a: State, b: State, now: real, c: Settings)
    requires Twins(a, b, now, c)
    ensures Twins(a.(lastSent := Pruned(a.lastSent, now, c)), b, now, c)
  {
    hide Mark;
    forall key ensures MarkOk(a.(lastSent := Pruned(a.lastSent, now, c)), key, now, c) {
      assert MarkOk(a, key, now, c);
    }
  }

  lemma StepTwins(a: State, b: State, e: Event, t: real, c: Settings)
    requires Twins(a, b, t, c) && Clock(e, t) >= t && (!e.Fails? ==> e.now > 0.0)
    requires e.Asks? ==> 0.0 <= e.gap <= c.Keep()
    ensures Twins(Step(a, e, c), if e.Saves? then b else Step(b, e, c), Clock(e, t), c)
  {
    hide MarkOk, ObserveAll, ReleaseAll, Pruned, Ask;
    var now := Clock(e, t);
    TwinsLater(a, b, t, now, c);
    match e
    case Cycle(nodes, _) =>
      QueueTwins(a, b, [], now, c);
      ReleaseTwins(a.(rollbacks := []), b.(rollbacks := []), a.rollbacks, now, c);
      ObservationTwins(ReleaseAll(a.(rollbacks := []), a.rollbacks), ReleaseAll(b.(rollbacks := []), a.rollbacks),
                       Looks(nodes, c), now, c);
    case Fails(f) => QueueTwins(a, b, a.rollbacks + [f], now, c);
    case Asks(key, _, gap) => AskTwins(a, b, key, now, gap, c);
    case Saves(_) => SaveTwins(a, b, now, c);
  }

  lemma {:induction false} RunTwins(events: seq<Event>, c: Settings)
    requires Orderly(events, c)
    ensures Twins(Run(events, c), Run(WithoutSaves(events), c), Now(events), c)
  {
    hide Twins, Step;
    if events == [] {
      StartTwins(c);
    } else {
      var k := |events| - 1;
      var rest, e := events[..k], events[k];
      RunTwins(rest, c);
      StepTwins(Run(rest, c), Run(WithoutSaves(rest), c), e, Now(rest), c);
      assert (WithoutSaves(rest) + [e])[..|WithoutSaves(rest)|] == WithoutSaves(rest);
    }
  }

  lemma StartTwins(c: Settings)
    ensures Twins(START, START, 0.0, c)
  {
  }

  /** Pruning never changes an answer or a message: a run with all its pruning
      left out has the same record and the same state, marks aside. */
  lemma PruningIsInvisible(events: seq<Event>, c: Settings)
    requires Orderly(events, c)
    ensures Run(events, c).log == Run(WithoutSaves(events), c).log
    ensures Run(events, c).confirmed == Run(WithoutSaves(events), c).confirmed
    ensures Run(events, c).pending == Run(WithoutSaves(events), c).pending
  {
    hide MarkOk, Run;
    RunTwins(events, c);
  }

  // ---------------------------------------------------------------------------
  // The class
  // ---------------------------------------------------------------------------

  /** The class keeps one dictionary per alert; together they are one by subject. */
  function Both(down: map<string, real>, blind: map<string, real>): map<Subject, real> {
    (map n | n in down :: Subject(Health, n) := down[n]) + (map n | n in blind :: Subject(Telemetry, n) := blind[n])
  }

  function Find<K>(m: map<K, real>, k: K): Option<real> {
    if k in m then Some(m[k]) else None
  }

  predicate Alike<K>(a: map<K, real>, b: map<K, real>, k: K) {
    Find(a, k) == Find(b, k)
  }

  lemma SameFinds<K>(a: map<K, real>, b: map<K, real>)
    requires forall k :: Alike(a, b, k)
    ensures a == b
  {
    forall k ensures (k in a <==> k in b) && (k in a ==> a[k] == b[k]) {
      assert Alike(a, b, k);
    }
  }

  lemma BothHas(down: map<string, real>, blind: map<string, real>, who: Subject)
    ensures Find(Both(down, blind), who) == Find(if who.alert == Health then down else blind, who.name)
  {
    if who.alert == Health {
      assert who == Subject(Health, who.name);
    } else {
      assert who == Subject(Telemetry, who.name);
    }
  }

  lemma BothSet(down: map<string, real>, blind: map<string, real>, n: string, x: real)
    ensures Both(down[n := x], blind) == Both(down, blind)[Subject(Health, n) := x]
    ensures Both(down, blind[n := x]) == Both(down, blind)[Subject(Telemetry, n) := x]
  {
    hide Both;
    var h, h' := Both(down[n := x], blind), Both(down, blind)[Subject(Health, n) := x];
    forall who ensures Alike(h, h', who) {
      BothHas(down, blind, who);
      BothHas(down[n := x], blind, who);
    }
    SameFinds(h, h');
    var t, t' := Both(down, blind[n := x]), Both(down, blind)[Subject(Telemetry, n) := x];
    forall who ensures Alike(t, t', who) {
      BothHas(down, blind, who);
      BothHas(down, blind[n := x], who);
    }
    SameFinds(t, t');
  }

  lemma BothDrop(down: map<string, real>, blind: map<string, real>, n: string)
    ensures Both(down - {n}, blind) == Both(down, blind) - {Subject(Health, n)}
    ensures Both(down, blind - {n}) == Both(down, blind) - {Subject(Telemetry, n)}
  {
    hide Both;
    var h, h' := Both(down - {n}, blind), Both(down, blind) - {Subject(Health, n)};
    forall who ensures Alike(h, h', who) {
      BothHas(down, blind, who);
      BothHas(down - {n}, blind, who);
    }
    SameFinds(h, h');
    var t, t' := Both(down, blind - {n}), Both(down, blind) - {Subject(Telemetry, n)};
    forall who ensures Alike(t, t', who) {
      BothHas(down, blind, who);
      BothHas(down, blind - {n}, who);
    }
    SameFinds(t, t');
  }

  lemma BadInSteps(st: State, who: Subject, now: real, c: Settings)
    ensures var seen, gap := Noted(st, who, now), c.Gap(who.alert);
      ObserveBad(st, who, now, c) ==
        if Get(st.confirmed, who) == 0.0 && now - seen.pending[who] >= c.Grace(who.alert)
           && Allowed(seen, KeyOf(who), now, gap)
        then Report(Ask(seen, KeyOf(who), now, gap), who, now)
        else seen
  {
  }

  /** The alert thread's state. */
  class SlackNotifier {
    const settings: Settings
    var down: map<string, real>
    var pendingDown: map<string, real>
    var blind: map<string, real>
    var pendingBlind: map<string, real>
    var lastSent: map<string, real>
    var rollbacks: seq<Failure>
    ghost var log: seq<Entry>

    constructor (settings: Settings)
      ensures this.settings == settings && Value() == START
    {
      this.settings := settings;
      down, pendingDown, blind, pendingBlind := map[], map[], map[], map[];
      lastSent, rollbacks, log := map[], [], [];
    }

    ghost function Value(): State
      reads this
    {
      State(Both(down, blind), Both(pendingDown, pendingBlind), lastSent, rollbacks, log)
    }

    /** `_ok_to_send` */
    method OkToSend(key: string, now: real, minGap: real) returns (ok: bool)
      modifies this`lastSent, this`log
      ensures ok <==> Allowed(old(Value()), key, now, minGap)
      ensures Value() == Step(old(Value()), Asks(key, now, minGap), settings)
    {
      hide Both;
      if now - Get(lastSent, key) < minGap {
        return false;
      }
      lastSent := lastSent[key := now];
      log := log + [Granted(key, now, minGap)];
      return true;
    }

    /** The delivery thread hands back a failed message. */
    method DeliveryFailed(key: string, enqTs: real)
      modifies this`rollbacks
      ensures Value() == Step(old(Value()), Fails(Failure(key, enqTs)), settings)
    {
      hide Both;
      rollbacks := rollbacks + [Failure(key, enqTs)];
    }

    /** `_apply_rollbacks` */
    method ApplyRollbacks()
      modifies this`rollbacks, this`lastSent, this`log
      ensures Value() == ReleaseAll(old(Value()).(rollbacks := []), old(rollbacks))
    {
      hide Both;
      ghost var all, done := rollbacks, 0;
      while rollbacks != []
        invariant 0 <= done <= |all| && rollbacks == all[done..]
        invariant Value() == ReleaseAll(old(Value()).(rollbacks := []), all[..done]).(rollbacks := rollbacks)
        invariant ReleaseAll(old(Value()).(rollbacks := []), all[..done]).rollbacks == []
        decreases |rollbacks|
      {
        var f := rollbacks[0];
        rollbacks := rollbacks[1..];
        if Get(lastSent, f.key) <= f.enqueued {
          lastSent := lastSent - {f.key};
        }
        log := log + [Released(f.key, f.enqueued)];
        assert all[..done + 1][..done] == all[..done];
        done := done + 1;
      }
      assert all[..done] == all;
    }

    /** The node-health part of `process`, for one node. */
    method CheckNode(n: Node, now: real)
      modifies this`down, this`pendingDown, this`lastSent, this`log
      ensures Value() == Observe(old(Value()), n.HealthLook(), now, settings)
    {
      hide Both, ObserveBad;
      ghost var who := Subject(Health, n.name);
      BothHas(down, blind, who);
      BothHas(pendingDown, pendingBlind, who);
      BadInSteps(Value(), who, now, settings);
      var confirmed := Get(down, n.name);
      log := log + [Seen(who, now, n.down)];
      if n.down {
        var first := if n.name in pendingDown then pendingDown[n.name] else now;
        BothSet(pendingDown, pendingBlind, n.name, first);
        pendingDown := pendingDown[n.name := first];
        assert Value() == Noted(old(Value()), who, now);
        if confirmed == 0.0 && now - first >= settings.downGrace {
          var ok := OkToSend("down:" + n.name, now, settings.debounce);
          if ok {
            log := log + [Alarm(who, first, now)];
            BothSet(down, blind, n.name, first);
            down := down[n.name := first];
          }
        }
      } else {
        BothDrop(pendingDown, pendingBlind, n.name);
        pendingDown := pendingDown - {n.name};
        if confirmed != 0.0 {
          log := log + [Recovered(who, now - confirmed, now)];
        }
        BothSet(down, blind, n.name, 0.0);
        down := down[n.name := 0.0];
      }
    }

    /** The collection part of `process`, for one node. */
    method CheckTelemetry(n: Node, now: real)
      modifies this`blind, this`pendingBlind, this`lastSent, this`log
      ensures Value() == Observe(old(Value()), n.TelemetryLook(), now, settings)
    {
      hide Both, ObserveBad;
      ghost var who := Subject(Telemetry, n.name);
      BothHas(down, blind, who);
      BothHas(pendingDown, pendingBlind, who);
      BadInSteps(Value(), who, now, settings);
      var confirmed := Get(blind, n.name);
      var isBlind := n.hasGpu && n.failing && !n.down;
      log := log + [Seen(who, now, isBlind)];
      if isBlind {
        var first := if n.name in pendingBlind then pendingBlind[n.name] else now;
        BothSet(pendingDown, pendingBlind, n.name, first);
        pendingBlind := pendingBlind[n.name := first];
        assert Value() == Noted(old(Value()), who, now);
        if confirmed == 0.0 && now - first >= settings.collectGrace {
          var ok := OkToSend("blind:" + n.name, now, settings.nag);
          if ok {
            log := log + [Alarm(who, first, now)];
            BothSet(down, blind, n.name, first);
            blind := blind[n.name := first];
          }
        }
      } else {
        BothDrop(pendingDown, pendingBlind, n.name);
        pendingBlind := pendingBlind - {n.name};
        if confirmed != 0.0 {
          log := log + [Recovered(who, now - confirmed, now)];
        }
        BothSet(down, blind, n.name, 0.0);
        blind := blind[n.name := 0.0];
      }
    }

    /** `process`: failed deliveries first, then the health of every node of the
        snapshot, then their telemetry. */
    method Process(nodes: seq<Node>, now: real)
      modifies this
      ensures Value() == Step(old(Value()), Cycle(nodes, now), settings)
    {
      hide Observe, Both;
      ApplyRollbacks();
      ghost var released := Value();
      ghost var health, telemetry := HealthLooks(nodes), TelemetryLooks(nodes);
      if settings.nodeHealth {
        for i := 0 to |nodes|
          invariant Value() == ObserveAll(released, health[..i], now, settings)
        {
          CheckNode(nodes[i], now);
          assert health[..i + 1][..i] == health[..i];
        }
        assert health[..|nodes|] == health;
      }
      ghost var checked := Value();
      if settings.collectAlert {
        for i := 0 to |nodes|
          invariant Value() == ObserveAll(checked, telemetry[..i], now, settings)
        {
          CheckTelemetry(nodes[i], now);
          assert telemetry[..i + 1][..i] == telemetry[..i];
        }
        assert telemetry[..|nodes|] == telemetry;
      }
      ObserveMore(released, if settings.nodeHealth then health else [], if settings.collectAlert then telemetry else [],
                  now, settings);
    }

    /** The pruning in `_save`. */
    method Save(now: real)
      modifies this`lastSent
      ensures Value() == Step(old(Value()), Saves(now), settings)
    {
      hide Both;
      var cutoff := now - (if settings.debounce > settings.nag then settings.debounce else settings.nag) * 2.0;
      var expired := set k | k in lastSent && lastSent[k] < cutoff;
      while expired != {}
        invariant forall k :: k in expired ==> k in lastSent && old(lastSent)[k] < cutoff
        invariant forall k :: k in lastSent <==> k in old(lastSent) && (old(lastSent)[k] >= cutoff || k in expired)
        invariant forall k :: k in lastSent ==> lastSent[k] == old(lastSent)[k]
        decreases expired
      {
        var k :| k in expired;
        expired := expired - {k};
        lastSent := lastSent - {k};
      }
      assert lastSent == Pruned(old(lastSent), now, settings);
    }

    /** The calls the collector makes, in any order: the object runs as `Run` does. */
    method Serve(events: seq<Event>)
      requires Value() == START
      modifies this
      ensures Value() == Run(events, settings)
      ensures Orderly(events, settings) ==> Inv(Value(), Now(events), settings)
    {
      hide Step, Inv, Both;
      for i := 0 to |events|
        invariant Value() == Run(events[..i], settings)
      {
        assert events[..i + 1][..i] == events[..i];
        match events[i]
        case Cycle(nodes, now) => Process(nodes, now);
        case Fails(f) => DeliveryFailed(f.key, f.enqueued);
        case Asks(key, now, gap) => var _ := OkToSend(key, now, gap);
        case Saves(now) => Save(now);
      }
      assert events[..|events|] == events;
      if Orderly(events, settings) {
        RunIsOk(events, settings);
      }
    }
  }
}
