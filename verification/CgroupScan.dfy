/**
The scan of Slurm's control-group tree: bounded, breadth first, dropping job ids
that more than one directory claims, and giving every descriptor back.

A directory is a value that says what opening, examining and listing it will
answer; the kernel keeps the set of open descriptors.
*/
module CgroupScan {
  import opened Common

  type Jid = string
  type Fd = nat

  const MAX_VISITED := 4096
  const MAX_STEPS := 32
  const MAX_PIDS := 32
  const MAX_UID_DEPTH := 2

  // ---------------------------------------------------------------------------
  // What the file system answers
  // ---------------------------------------------------------------------------

  datatype Identity = Identity(dev: int, ino: int)

  /** A kernel file: it cannot be opened, turns out unusable, or has content. */
  datatype File<T> = NoFile | Unusable | Content(value: T)

  /** A process of a step: `isRoot` is absent when it cannot be examined, and the
      command line gives a job id or "". */
  datatype Proc = Proc(numeric: bool, opens: bool, isRoot: Option<bool>, command: File<Jid>)

  datatype StepEntry = StepEntry(isStep: bool, opens: bool, daemonOpens: bool, pids: File<seq<Proc>>, procOpens: bool)

  datatype Counters = Counters(usage: Option<int>, stats: string)

  /** `stat` is absent when the directory cannot be examined, `counters` when
      sampling it raises, `steps` when it cannot be listed for steps. */
  datatype Dir = Dir(stat: Option<Identity>, entries: seq<Entry>, counters: Option<Counters>, steps: Option<seq<StepEntry>>)

  /** One entry: listing raises here, its kind cannot be told, it is no directory,
      or it is one that opens or not. */
  datatype Entry = Unreadable | Unknown | NotDir | Child(name: string, dir: Option<Dir>)

  /** `system.slice` or the root: it opens or not, and listing it raises or gives
      the scope directories in name order, each opening or not. */
  datatype Parent = Parent(opens: bool, scopes: Option<seq<Option<Dir>>>)

  datatype World = World(opens: bool, controllers: File<string>, parents: seq<Parent>)

  // ---------------------------------------------------------------------------
  // Names
  // ---------------------------------------------------------------------------

  predicate Digit(c: char) {
    '0' <= c <= '9'
  }

  predicate Alnum(c: char) {
    Digit(c) || 'a' <= c <= 'z' || 'A' <= c <= 'Z'
  }

  predicate Number(s: string) {
    1 <= |s| <= 20 && forall i :: 0 <= i < |s| ==> Digit(s[i])
  }

  datatype Kind = Other | JobDir(jid: Jid) | SluidDir | UidDir

  function KindOf(name: string, depth: nat): Kind {
    if |name| > 4 && name[..4] == "job_" && Number(name[4..]) then JobDir(name[4..])
    else if 2 <= |name| <= 33 && name[0] == 's' && forall i :: 1 <= i < |name| ==> Alnum(name[i]) then SluidDir
    else if depth < MAX_UID_DEPTH && |name| > 4 && name[..4] == "uid_" && Number(name[4..]) then UidDir
    else Other
  }

  const DIGITS := "0123456789"
  const LOWER := "abcdefghijklmnopqrstuvwxyz"
  const UPPER := "ABCDEFGHIJKLMNOPQRSTUVWXYZ"
  const LETTERS := LOWER + UPPER

  /** Between `least` and `most` characters, all of them among `chars`. */
  predicate Made(s: string, chars: string, least: nat, most: nat) {
    least <= |s| <= most && forall i :: 0 <= i < |s| ==> s[i] in chars
  }

  lemma DigitsAre(c: char)
    ensures Digit(c) <==> c in DIGITS
  {
    var d := c as int - '0' as int;
    if Digit(c) {
      assert DIGITS[d] == c;
    }
  }

  lemma LettersAre(c: char)
    ensures Alnum(c) <==> c in LETTERS + DIGITS
  {
    hide Digit;
    DigitsAre(c);
    LowersAre(c);
    UppersAre(c);
    assert c in LETTERS + DIGITS <==> c in LOWER || c in UPPER || c in DIGITS;
  }

  lemma LowersAre(c: char)
    ensures 'a' <= c <= 'z' <==> c in LOWER
  {
    if 'a' <= c <= 'z' {
      assert LOWER[c as int - 'a' as int] == c;
    }
  }

  lemma UppersAre(c: char)
    ensures 'A' <= c <= 'Z' <==> c in UPPER
  {
    if 'A' <= c <= 'Z' {
      assert UPPER[c as int - 'A' as int] == c;
    }
  }

  lemma NumbersAre(s: string)
    ensures Number(s) <==> Made(s, DIGITS, 1, 20)
  {
    forall c ensures Digit(c) <==> c in DIGITS {
      DigitsAre(c);
    }
    hide Digit;
  }

  lemma JobDirText(name: string, digits: string)
    requires Made(digits, DIGITS, 1, 20)
    ensures name == "job_" + digits ==> name[..4] == "job_" && name[4..] == digits && |name| > 4
    ensures name == "uid_" + digits ==> name[..4] == "uid_" && name[4..] == digits && |name| > 4
  {
  }

  /** Which names count: `job_` and up to twenty digits, the job's id; `s` and up
      to 32 letters or digits; and, in the first two levels, `uid_` and digits. */
  lemma KindsAre(name: string, depth: nat)
    ensures forall digits :: name == "job_" + digits && Made(digits, DIGITS, 1, 20) ==> KindOf(name, depth) == JobDir(digits)
    ensures KindOf(name, depth).JobDir? ==>
      Made(KindOf(name, depth).jid, DIGITS, 1, 20) && name == "job_" + KindOf(name, depth).jid
    ensures KindOf(name, depth).SluidDir? <==> exists rest :: name == "s" + rest && Made(rest, LETTERS + DIGITS, 1, 32)
    ensures KindOf(name, depth).UidDir? <==>
      depth < MAX_UID_DEPTH && exists digits :: name == "uid_" + digits && Made(digits, DIGITS, 1, 20)
  {
    hide Number, Digit, Alnum;
    forall digits | name == "job_" + digits && Made(digits, DIGITS, 1, 20) ensures KindOf(name, depth) == JobDir(digits) {
      JobDirText(name, digits);
      NumbersAre(digits);
    }
    if |name| > 4 {
      NumbersAre(name[4..]);
      assert name == name[..4] + name[4..];
    }
    SluidsAre(name);
    UidsAre(name);
  }

  ghost predicate IsSluid(name: string) {
    2 <= |name| <= 33 && name[0] == 's' && forall i :: 1 <= i < |name| ==> Alnum(name[i])
  }

  lemma MadeOfAlnum(rest: string)
    ensures Made(rest, LETTERS + DIGITS, 1, 32) <==> 1 <= |rest| <= 32 && forall i :: 0 <= i < |rest| ==> Alnum(rest[i])
  {
    hide Alnum;
    forall i | 0 <= i < |rest| ensures Alnum(rest[i]) <==> rest[i] in LETTERS + DIGITS {
      LettersAre(rest[i]);
    }
  }

  lemma AfterS(name: string, rest: string)
    requires name == "s" + rest
    ensures IsSluid(name) <==> Made(rest, LETTERS + DIGITS, 1, 32)
  {
    MadeOfAlnum(rest);
    hide Alnum, Made;
    assert forall i :: 0 <= i < |rest| ==> rest[i] == name[i + 1];
    assert forall i :: 1 <= i < |name| ==> name[i] == rest[i - 1];
  }

  lemma SluidsAre(name: string)
    ensures IsSluid(name) <==> exists rest :: name == "s" + rest && Made(rest, LETTERS + DIGITS, 1, 32)
  {
    if IsSluid(name) {
      assert name == "s" + name[1..];
    }
    hide IsSluid, Made;
    forall rest | name == "s" + rest ensures IsSluid(name) <==> Made(rest, LETTERS + DIGITS, 1, 32) {
      AfterS(name, rest);
    }
  }

  lemma UidsAre(name: string)
    ensures (|name| > 4 && name[..4] == "uid_" && Number(name[4..])) <==>
      exists digits :: name == "uid_" + digits && Made(digits, DIGITS, 1, 20)
  {
    hide Number;
    if |name| > 4 && name[..4] == "uid_" && Number(name[4..]) {
      NumbersAre(name[4..]);
      assert name == "uid_" + name[4..];
    }
    if digits :| name == "uid_" + digits && Made(digits, DIGITS, 1, 20) {
      JobDirText(name, digits);
      NumbersAre(digits);
    }
  }

  // ---------------------------------------------------------------------------
  // Job ids of SLUID directories
  // ---------------------------------------------------------------------------

  function Result<T>(f: File<T>): Option<T> {
    if f.Content? then Some(f.value) else None
  }

  /** The first root daemon that names a job, unless reading raises before it. */
  function PidsJob(pids: seq<Proc>): Jid {
    if pids == [] then ""
    else
      var p := pids[0];
      if !p.numeric then PidsJob(pids[1..])
      else if !p.opens || p.isRoot.None? then ""
      else if !p.isRoot.value then PidsJob(pids[1..])
      else if !p.command.Content? then ""
      else if p.command.value != "" then p.command.value
      else PidsJob(pids[1..])
  }

  function Firsts<T>(s: seq<T>, n: nat): seq<T> {
    if |s| <= n then s else s[..n]
  }

  function StepJob(s: StepEntry): Jid {
    if s.opens && s.daemonOpens && s.pids.Content? && s.procOpens then PidsJob(Firsts(s.pids.value, MAX_PIDS)) else ""
  }

  function StepsJob(steps: seq<StepEntry>): Jid {
    if steps == [] then "" else if StepJob(steps[0]) != "" then StepJob(steps[0]) else StepsJob(steps[1..])
  }

  /** The steps among the first 4096 entries, at most 32. */
  function Steps(entries: seq<StepEntry>, n: nat): seq<StepEntry>
    requires n <= |entries|
  {
    if n == 0 then []
    else
      var before := Steps(entries, n - 1);
      if n > MAX_VISITED || |before| >= MAX_STEPS || !entries[n - 1].isStep then before else before + [entries[n - 1]]
  }

  function SluidJob(d: Dir): Jid {
    if d.steps.None? then "" else StepsJob(Steps(d.steps.value, |d.steps.value|))
  }

  /** A root daemon whose command line names the job. */
  predicate NamesJob(p: Proc, jid: Jid) {
    p.numeric && p.opens && p.isRoot == Some(true) && p.command == Content(jid) && jid != ""
  }

  /** A process that is passed over: no process id, not root's, or naming no job. */
  predicate PassedOver(p: Proc) {
    !p.numeric || (p.opens && p.isRoot.Some? && (!p.isRoot.value || p.command == Content("")))
  }

  ghost predicate FirstToName(pids: seq<Proc>, i: nat, jid: Jid) {
    i < |pids| && NamesJob(pids[i], jid) && forall k :: 0 <= k < i ==> PassedOver(pids[k])
  }

  lemma {:induction false} PidsJobIff(pids: seq<Proc>, jid: Jid)
    requires jid != ""
    ensures PidsJob(pids) == jid <==> exists i: nat :: FirstToName(pids, i, jid)
    decreases |pids|
  {
    if pids != [] {
      PidsJobIff(pids[1..], jid);
      if i: nat :| FirstToName(pids, i, jid) && i > 0 {
        assert FirstToName(pids[1..], i - 1, jid);
      }
      if i: nat :| FirstToName(pids[1..], i, jid) && PassedOver(pids[0]) {
        assert forall k :: 0 < k < i + 1 ==> pids[k] == pids[1..][k - 1];
        assert FirstToName(pids, i + 1, jid);
      }
      if NamesJob(pids[0], jid) {
        assert FirstToName(pids, 0, jid);
      }
    }
  }

  /** A step names a job if its daemon's processes can be listed, one of the first
      32 entries is a root daemon naming it, and all before that are passed over. */
  ghost predicate StepNames(s: StepEntry, jid: Jid) {
    s.opens && s.daemonOpens && s.pids.Content? && s.procOpens
    && exists i: nat :: i < MAX_PIDS && FirstToName(s.pids.value, i, jid)
  }

  lemma StepJobIff(s: StepEntry, jid: Jid)
    requires jid != ""
    ensures StepJob(s) == jid <==> StepNames(s, jid)
  {
    hide PidsJob;
    if s.opens && s.daemonOpens && s.pids.Content? && s.procOpens {
      var all := s.pids.value;
      var few := Firsts(all, MAX_PIDS);
      PidsJobIff(few, jid);
      if i: nat :| FirstToName(few, i, jid) {
        assert FirstToName(all, i, jid);
      }
      if i: nat :| i < MAX_PIDS && FirstToName(all, i, jid) {
        assert FirstToName(few, i, jid);
      }
    }
  }

  function CountSteps(entries: seq<StepEntry>): nat {
    if entries == [] then 0
    else CountSteps(entries[..|entries| - 1]) + if entries[|entries| - 1].isStep then 1 else 0
  }

  /** Entry `i` is one of those that are looked into: a step, among the first 4096
      entries, with fewer than 32 steps before it. */
  ghost predicate LookedInto(entries: seq<StepEntry>, i: nat) {
    i < |entries| && i < MAX_VISITED && entries[i].isStep && CountSteps(entries[..i]) < MAX_STEPS
  }

  ghost predicate FirstStepToName(entries: seq<StepEntry>, i: nat, jid: Jid) {
    LookedInto(entries, i) && StepJob(entries[i]) == jid
    && forall k :: 0 <= k < i && LookedInto(entries, k) ==> StepJob(entries[k]) == ""
  }

  lemma {:induction false} StepsCount(entries: seq<StepEntry>, n: nat)
    requires n <= |entries|
    ensures n <= MAX_VISITED ==>
      |Steps(entries, n)| == if CountSteps(entries[..n]) < MAX_STEPS then CountSteps(entries[..n]) else MAX_STEPS
    decreases n
  {
    if n > 0 {
      StepsCount(entries, n - 1);
      assert entries[..n][..n - 1] == entries[..n - 1];
    }
  }

  lemma StepsMore(entries: seq<StepEntry>, n: nat)
    requires 0 < n <= |entries|
    ensures Steps(entries, n) == Steps(entries, n - 1) + if LookedInto(entries, n - 1) then [entries[n - 1]] else []
  {
    StepsCount(entries, n - 1);
    assert Steps(entries, n - 1) + [] == Steps(entries, n - 1);
  }

  lemma {:induction false} StepsJobAppend(steps: seq<StepEntry>, s: StepEntry)
    ensures StepsJob(steps + [s]) == if StepsJob(steps) != "" then StepsJob(steps) else StepJob(s)
    decreases |steps|
  {
    hide StepJob;
    if steps == [] {
      assert ([] + [s])[1..] == [];
    } else {
      assert (steps + [s])[1..] == steps[1..] + [s];
      StepsJobAppend(steps[1..], s);
    }
  }

  ghost predicate NobodyNames(entries: seq<StepEntry>, n: nat)
    requires n <= |entries|
  {
    forall k :: 0 <= k < n && LookedInto(entries, k) ==> StepJob(entries[k]) == ""
  }

  lemma {:induction false} StepsJobIs(entries: seq<StepEntry>, n: nat, jid: Jid)
    requires n <= |entries| && jid != ""
    ensures StepsJob(Steps(entries, n)) == jid <==> exists i: nat :: i < n && FirstStepToName(entries, i, jid)
    ensures StepsJob(Steps(entries, n)) == "" <==> NobodyNames(entries, n)
    decreases n
  {
    hide StepJob, Steps, StepsJob, LookedInto;
    if n == 0 {
      NoSteps(entries);
    } else {
      StepsMore(entries, n);
      StepsJobIs(entries, n - 1, jid);
      if LookedInto(entries, n - 1) {
        StepsJobAppend(Steps(entries, n - 1), entries[n - 1]);
      } else {
        assert Steps(entries, n - 1) + [] == Steps(entries, n - 1);
      }
      if i: nat :| i < n && FirstStepToName(entries, i, jid) && i == n - 1 {
        assert NobodyNames(entries, n - 1);
      }
      if StepsJob(Steps(entries, n - 1)) == "" && LookedInto(entries, n - 1) && StepJob(entries[n - 1]) == jid {
        assert FirstStepToName(entries, n - 1, jid);
      }
    }
  }

  lemma NoSteps(entries: seq<StepEntry>)
    ensures StepsJob(Steps(entries, 0)) == ""
  {
  }

  /** A SLUID directory belongs to the job that the first of its steps to name one
      names, among at most 32 steps of its first 4096 entries. */
  lemma SluidJobIff(d: Dir, jid: Jid)
    requires jid != ""
    ensures SluidJob(d) == jid <==> d.steps.Some? && exists i: nat :: FirstStepToName(d.steps.value, i, jid)
    ensures forall s :: StepJob(s) == jid <==> StepNames(s, jid)
  {
    hide StepJob, Steps, StepsJob;
    if d.steps.Some? {
      StepsJobIs(d.steps.value, |d.steps.value|, jid);
    }
    forall s ensures StepJob(s) == jid <==> StepNames(s, jid) {
      StepJobIff(s, jid);
    }
  }

  function JobIdOf(kind: Kind, d: Dir): Jid {
    match kind
    case JobDir(jid) => jid
    case SluidDir => SluidJob(d)
    case _ => ""
  }

  // ---------------------------------------------------------------------------
  // The scan as a function
  // ---------------------------------------------------------------------------

  /** A directory that was resolved to a job id. */
  datatype Place = Place(jid: Jid, dir: Dir)

  datatype Values = Values(cpuCores: Option<real>, stats: string)

  datatype Usage = Usage(at: real, usec: int)

  /** The scan's variables; `log` lists the resolved directories, and `complete`
      says that nothing was skipped. */
  datatype Scan = Scan(jobs: map<Jid, Values>, duplicates: set<Jid>, seen: set<Identity>, kept: set<Identity>,
                       visited: nat, truncated: bool, previous: map<Identity, Usage>, log: seq<Place>, complete: bool)

  /** `_job_values`: the rate needs an earlier reading that is not larger. */
  function Sampled(previous: map<Identity, Usage>, id: Identity, c: Counters, now: real): Values {
    var rate :=
      if c.usage.Some? && c.usage.value >= 0 && id in previous && now > previous[id].at && c.usage.value >= previous[id].usec
      then Some((c.usage.value - previous[id].usec) as real / (now - previous[id].at) / 1000000.0)
      else None;
    Values(rate, c.stats)
  }

  function Remembered(previous: map<Identity, Usage>, id: Identity, c: Counters, now: real): map<Identity, Usage> {
    if c.usage.Some? && c.usage.value >= 0 then previous[id := Usage(now, c.usage.value)] else previous - {id}
  }

  /** A directory resolved to `jid`; the flag says whether the listing goes on. */
  function Resolve(s: Scan, jid: Jid, d: Dir, now: real): (Scan, bool)
    requires d.stat.Some?
  {
    var found := s.(kept := s.kept + {d.stat.value}, log := s.log + [Place(jid, d)]);
    if jid in s.jobs || jid in s.duplicates then
      (found.(jobs := s.jobs - {jid}, duplicates := s.duplicates + {jid}), true)
    else if d.counters.None? then (found.(complete := false), false)
    else
      (found.(jobs := s.jobs[jid := Sampled(s.previous, d.stat.value, d.counters.value, now)],
              previous := Remembered(s.previous, d.stat.value, d.counters.value, now)), true)
  }

  /** What one entry does: the new state, the directories to visit later, and
      whether the listing goes on. */
  function Visit(s: Scan, e: Entry, depth: nat, cap: nat, now: real): (Scan, seq<(Dir, nat)>, bool) {
    if e.Unreadable? then (s.(complete := false), [], false)
    else
      var s1 := s.(visited := s.visited + 1);
      if s1.visited > MAX_VISITED || |s.jobs| >= cap then (s1.(truncated := true, complete := false), [], false)
      else if e.Unknown? then (s1.(complete := false), [], false)
      else if e.NotDir? || KindOf(e.name, depth).Other? then (s1, [], true)
      else if e.dir.None? then (s1.(complete := false), [], false)
      else if KindOf(e.name, depth).UidDir? then (s1, [(e.dir.value, depth + 1)], true)
      else
        var jid := JobIdOf(KindOf(e.name, depth), e.dir.value);
        if jid == "" then (s1, [], true)
        else if e.dir.value.stat.None? then (s1.(complete := false), [], false)
        else
          var r := Resolve(s1, jid, e.dir.value, now);
          (r.0, [], r.1)
  }

  predicate Within(s: Scan) {
    s.visited <= MAX_VISITED && !s.truncated
  }

  /** The entries of `d` from number `i` on. */
  function Walk(s: Scan, d: Dir, i: nat, depth: nat, cap: nat, now: real, queue: seq<(Dir, nat)>): (r: (Scan, seq<(Dir, nat)>))
    requires Within(s)
    ensures r.0.visited <= MAX_VISITED + 1 && (!r.0.truncated ==> Within(r.0))
    ensures |r.1| + s.visited <= |queue| + r.0.visited
    decreases |d.entries| - i
  {
    if i >= |d.entries| then (s, queue)
    else
      var v := Visit(s, d.entries[i], depth, cap, now);
      if v.2 then Walk(v.0, d, i + 1, depth, cap, now, queue + v.1) else (v.0, queue + v.1)
  }

  /** The queue of one scope. */
  function Bfs(s: Scan, queue: seq<(Dir, nat)>, cap: nat, now: real): Scan
    requires s.visited <= MAX_VISITED + 1 && (!s.truncated ==> Within(s))
    decreases |queue| + MAX_VISITED + 1 - s.visited
  {
    if queue == [] || s.truncated then s
    else
      var (d, depth) := queue[0];
      if d.stat.None? || d.stat.value in s.seen then Bfs(s.(complete := false), queue[1..], cap, now)
      else
        var w := Walk(s.(seen := s.seen + {d.stat.value}), d, 0, depth, cap, now, queue[1..]);
        Bfs(w.0, w.1, cap, now)
  }

  /** The scopes of one parent, until the scan is cut short. */
  function Scopes(s: Scan, scopes: seq<Option<Dir>>, i: nat, cap: nat, now: real): (r: Scan)
    requires s.visited <= MAX_VISITED + 1 && (!s.truncated ==> Within(s))
    ensures r.visited <= MAX_VISITED + 1 && (!r.truncated ==> Within(r))
    decreases |scopes| - i
  {
    if i >= |scopes| || s.truncated then s
    else if scopes[i].None? then Scopes(s.(complete := false), scopes, i + 1, cap, now)
    else
      BfsWithin(s, [(scopes[i].value, 0)], cap, now);
      Scopes(Bfs(s, [(scopes[i].value, 0)], cap, now), scopes, i + 1, cap, now)
  }

  /** Both parents; the flag says that listing one of them raised. */
  function Parents(s: Scan, parents: seq<Parent>, i: nat, cap: nat, now: real): (Scan, bool)
    requires s.visited <= MAX_VISITED + 1 && (!s.truncated ==> Within(s))
    decreases |parents| - i
  {
    if i >= |parents| || s.truncated then (s, false)
    else if !parents[i].opens then Parents(s.(complete := false), parents, i + 1, cap, now)
    else if parents[i].scopes.None? then (s.(complete := false), true)
    else Parents(Scopes(s, parents[i].scopes.value, 0, cap, now), parents, i + 1, cap, now)
  }

  function Start(previous: map<Identity, Usage>): Scan {
    Scan(map[], {}, {}, {}, 0, false, previous, [], true)
  }

  lemma {:induction false} BfsWithin(s: Scan, queue: seq<(Dir, nat)>, cap: nat, now: real)
    requires s.visited <= MAX_VISITED + 1 && (!s.truncated ==> Within(s))
    ensures var r := Bfs(s, queue, cap, now); r.visited <= MAX_VISITED + 1 && (!r.truncated ==> Within(r))
    decreases |queue| + MAX_VISITED + 1 - s.visited
  {
    hide Walk;
    if queue != [] && !s.truncated {
      var (d, depth) := queue[0];
      if d.stat.None? || d.stat.value in s.seen {
        BfsWithin(s.(complete := false), queue[1..], cap, now);
      } else {
        var w := Walk(s.(seen := s.seen + {d.stat.value}), d, 0, depth, cap, now, queue[1..]);
        BfsWithin(w.0, w.1, cap, now);
      }
    }
  }

  // ---------------------------------------------------------------------------
  // Which jobs are reported
  // ---------------------------------------------------------------------------

  datatype Verdict = Absent | Sole(dir: Dir) | Twice

  /** What the resolved directories say about a job id. */
  function VerdictOf(log: seq<Place>, jid: Jid): Verdict {
    if log == [] then Absent
    else
      var before, e := VerdictOf(log[..|log| - 1], jid), log[|log| - 1];
      if e.jid != jid then before
      else if before.Absent? then (if e.dir.counters.Some? then Sole(e.dir) else Absent)
      else Twice
  }

  /** Directory `i` is the first of its job id that could be sampled, and the
      last that was resolved to it. */
  ghost predicate SoleAt(log: seq<Place>, jid: Jid, i: nat) {
    && i < |log| && log[i].jid == jid && log[i].dir.counters.Some?
    && (forall k :: 0 <= k < i && log[k].jid == jid ==> log[k].dir.counters.None?)
    && (forall k :: i < k < |log| ==> log[k].jid != jid)
  }

  lemma {:induction false} AbsentIff(log: seq<Place>, jid: Jid)
    ensures VerdictOf(log, jid).Absent? <==>
      forall k :: 0 <= k < |log| && log[k].jid == jid ==> log[k].dir.counters.None?
  {
    if log != [] {
      var n := |log| - 1;
      AbsentIff(log[..n], jid);
      assert forall k :: 0 <= k < n ==> log[k] == log[..n][k];
      assert log[n].jid == jid && log[n].dir.counters.Some? ==> !VerdictOf(log, jid).Absent?;
    }
  }

  lemma {:induction false} SoleHas(log: seq<Place>, jid: Jid) returns (i: nat)
    requires VerdictOf(log, jid).Sole?
    ensures SoleAt(log, jid, i) && log[i].dir == VerdictOf(log, jid).dir
  {
    var n := |log| - 1;
    if log[n].jid == jid {
      i := n;
      AbsentIff(log[..n], jid);
      assert forall k :: 0 <= k < n ==> log[k] == log[..n][k];
    } else {
      i := SoleHas(log[..n], jid);
      assert forall k :: 0 <= k < n ==> log[k] == log[..n][k];
    }
  }

  lemma {:induction false} SoleIs(log: seq<Place>, jid: Jid, i: nat)
    requires SoleAt(log, jid, i)
    ensures VerdictOf(log, jid) == Sole(log[i].dir)
  {
    var n := |log| - 1;
    assert forall k :: 0 <= k < n ==> log[k] == log[..n][k];
    if i == n {
      AbsentIff(log[..n], jid);
    } else {
      SoleIs(log[..n], jid, i);
    }
  }

  function Occurs(log: seq<Place>, f: Place -> bool): nat {
    if log == [] then 0 else Occurs(log[..|log| - 1], f) + if f(log[|log| - 1]) then 1 else 0
  }

  function Of(jid: Jid): Place -> bool {
    (p: Place) => p.jid == jid
  }

  ghost predicate JidOk(s: Scan, jid: Jid) {
    var v := VerdictOf(s.log, jid);
    && (jid in s.jobs <==> v.Sole?)
    && (jid in s.duplicates <==> v.Twice?)
    && (jid in s.jobs ==> v.dir.counters.Some? && s.jobs[jid].stats == v.dir.counters.value.stats)
    && (s.complete ==> (v.Absent? <==> Occurs(s.log, Of(jid)) == 0) && (v.Sole? <==> Occurs(s.log, Of(jid)) == 1))
  }

  /** What the scan keeps at every step. */
  ghost predicate Inv(s: Scan, cap: nat) {
    && (forall jid :: JidOk(s, jid))
    && |s.jobs| <= cap
  }

  lemma Appends(log: seq<Place>, p: Place, jid: Jid)
    ensures VerdictOf(log + [p], jid) ==
      if p.jid != jid then VerdictOf(log, jid)
      else if VerdictOf(log, jid).Absent? then (if p.dir.counters.Some? then Sole(p.dir) else Absent)
      else Twice
    ensures Occurs(log + [p], Of(jid)) == Occurs(log, Of(jid)) + if p.jid == jid then 1 else 0
  {
    assert (log + [p])[..|log|] == log;
  }

  lemma OccursMore(log: seq<Place>, p: Place, f: Place -> bool)
    ensures Occurs(log + [p], f) == Occurs(log, f) + if f(p) then 1 else 0
  {
    assert (log + [p])[..|log|] == log;
  }

  lemma ResolveKeeps(s: Scan, jid: Jid, d: Dir, now: real, cap: nat)
    requires Inv(s, cap) && d.stat.Some? && |s.jobs| < cap
    ensures Inv(Resolve(s, jid, d, now).0, cap)
  {
    hide JidOk, Resolve;
    forall x ensures JidOk(Resolve(s, jid, d, now).0, x) {
      assert JidOk(s, x) && JidOk(s, jid);
      if x == jid {
        ResolveOwn(s, jid, d, now);
      } else {
        ResolveOther(s, jid, d, now, x);
      }
    }
    ResolveSize(s, jid, d, now);
  }

  lemma ResolveOwn(s: Scan, jid: Jid, d: Dir, now: real)
    requires d.stat.Some? && JidOk(s, jid)
    ensures JidOk(Resolve(s, jid, d, now).0, jid)
  {
    hide VerdictOf, Occurs, Remembered;
    Appends(s.log, Place(jid, d), jid);
  }

  lemma ResolveOther(s: Scan, jid: Jid, d: Dir, now: real, x: Jid)
    requires d.stat.Some? && JidOk(s, x) && x != jid
    ensures JidOk(Resolve(s, jid, d, now).0, x)
  {
    hide VerdictOf, Occurs, Remembered, Sampled;
    Appends(s.log, Place(jid, d), x);
  }

  lemma ResolveSize(s: Scan, jid: Jid, d: Dir, now: real)
    requires d.stat.Some?
    ensures |Resolve(s, jid, d, now).0.jobs| <= |s.jobs| + 1
  {
    hide Sampled, Remembered;
    CardinalityOfSubset((s.jobs - {jid}).Keys, s.jobs.Keys);
  }

  lemma {:induction false} CardinalityOfSubset<T>(a: set<T>, b: set<T>)
    requires a <= b
    ensures |a| <= |b|
  {
    if a != {} {
      var x :| x in a;
      CardinalityOfSubset(a - {x}, b - {x});
    }
  }

  lemma Unchanged(s: Scan, r: Scan, cap: nat)
    requires Inv(s, cap) && r.jobs == s.jobs && r.duplicates == s.duplicates && r.log == s.log && (r.complete ==> s.complete)
    ensures Inv(r, cap)
  {
    hide VerdictOf, Occurs;
    forall x ensures JidOk(r, x) {
      assert JidOk(s, x);
    }
  }

  lemma VisitKeeps(s: Scan, e: Entry, depth: nat, cap: nat, now: real)
    requires Inv(s, cap)
    ensures Inv(Visit(s, e, depth, cap, now).0, cap)
  {
    hide Inv, KindOf, JobIdOf, Resolve;
    var r := Visit(s, e, depth, cap, now).0;
    var s1 := s.(visited := s.visited + 1);
    Unchanged(s, s1, cap);
    if e.Child? && s1.visited <= MAX_VISITED && |s.jobs| < cap && e.dir.Some? && e.dir.value.stat.Some?
       && (KindOf(e.name, depth).JobDir? || KindOf(e.name, depth).SluidDir?)
       && JobIdOf(KindOf(e.name, depth), e.dir.value) != "" {
      ResolveKeeps(s1, JobIdOf(KindOf(e.name, depth), e.dir.value), e.dir.value, now, cap);
    } else {
      Unchanged(s, r, cap);
    }
  }

  lemma {:induction false} WalkKeeps(s: Scan, d: Dir, i: nat, depth: nat, cap: nat, now: real, queue: seq<(Dir, nat)>)
    requires Inv(s, cap) && Within(s)
    ensures Inv(Walk(s, d, i, depth, cap, now, queue).0, cap)
    decreases |d.entries| - i
  {
    hide Inv;
    if i < |d.entries| {
      VisitKeeps(s, d.entries[i], depth, cap, now);
      var v := Visit(s, d.entries[i], depth, cap, now);
      if v.2 {
        WalkKeeps(v.0, d, i + 1, depth, cap, now, queue + v.1);
      }
    }
  }

  lemma {:induction false} BfsKeeps(s: Scan, queue: seq<(Dir, nat)>, cap: nat, now: real)
    requires s.visited <= MAX_VISITED + 1 && (!s.truncated ==> Within(s)) && Inv(s, cap)
    ensures Inv(Bfs(s, queue, cap, now), cap)
    decreases |queue| + MAX_VISITED + 1 - s.visited
  {
    hide Walk, Inv;
    if queue != [] && !s.truncated {
      var (d, depth) := queue[0];
      if d.stat.None? || d.stat.value in s.seen {
        Unchanged(s, s.(complete := false), cap);
        BfsKeeps(s.(complete := false), queue[1..], cap, now);
      } else {
        var s1 := s.(seen := s.seen + {d.stat.value});
        Unchanged(s, s1, cap);
        WalkKeeps(s1, d, 0, depth, cap, now, queue[1..]);
        var w := Walk(s1, d, 0, depth, cap, now, queue[1..]);
        BfsKeeps(w.0, w.1, cap, now);
      }
    }
  }

  lemma {:induction false} ScopesKeep(s: Scan, scopes: seq<Option<Dir>>, i: nat, cap: nat, now: real)
    requires s.visited <= MAX_VISITED + 1 && (!s.truncated ==> Within(s)) && Inv(s, cap)
    ensures Inv(Scopes(s, scopes, i, cap, now), cap)
    decreases |scopes| - i
  {
    hide Inv, Bfs;
    if i < |scopes| && !s.truncated {
      if scopes[i].None? {
        Unchanged(s, s.(complete := false), cap);
        ScopesKeep(s.(complete := false), scopes, i + 1, cap, now);
      } else {
        BfsWithin(s, [(scopes[i].value, 0)], cap, now);
        BfsKeeps(s, [(scopes[i].value, 0)], cap, now);
        ScopesKeep(Bfs(s, [(scopes[i].value, 0)], cap, now), scopes, i + 1, cap, now);
      }
    }
  }

  lemma {:induction false} ParentsKeep(s: Scan, parents: seq<Parent>, i: nat, cap: nat, now: real)
    requires s.visited <= MAX_VISITED + 1 && (!s.truncated ==> Within(s)) && Inv(s, cap)
    ensures Inv(Parents(s, parents, i, cap, now).0, cap)
    decreases |parents| - i
  {
    hide Inv, Scopes;
    if i < |parents| && !s.truncated {
      Unchanged(s, s.(complete := false), cap);
      if !parents[i].opens {
        ParentsKeep(s.(complete := false), parents, i + 1, cap, now);
      } else if parents[i].scopes.Some? {
        ScopesKeep(s, parents[i].scopes.value, 0, cap, now);
        ParentsKeep(Scopes(s, parents[i].scopes.value, 0, cap, now), parents, i + 1, cap, now);
      }
    }
  }

  lemma StartKeeps(previous: map<Identity, Usage>, cap: nat)
    ensures Inv(Start(previous), cap)
  {
  }

  /** The state when both parents are done. */
  function Final(previous: map<Identity, Usage>, w: World, cap: nat, now: real): Scan {
    Parents(Start(previous), w.parents, 0, cap, now).0
  }

  /** A job id is reported if and only if the first directory of it that could be
      sampled is the last one resolved to it; it is reported with that
      directory's figures, and no more jobs than allowed are reported. */
  lemma ReportedIff(previous: map<Identity, Usage>, w: World, cap: nat, now: real, jid: Jid)
    ensures var s := Final(previous, w, cap, now);
      (jid in s.jobs <==> exists i: nat :: SoleAt(s.log, jid, i)) && |s.jobs| <= cap
    ensures var s := Final(previous, w, cap, now);
      forall i: nat :: SoleAt(s.log, jid, i) ==> jid in s.jobs && s.jobs[jid].stats == s.log[i].dir.counters.value.stats
  {
    hide Parents, VerdictOf;
    var s := Final(previous, w, cap, now);
    StartKeeps(previous, cap);
    ParentsKeep(Start(previous), w.parents, 0, cap, now);
    assert JidOk(s, jid);
    if VerdictOf(s.log, jid).Sole? {
      var i := SoleHas(s.log, jid);
    }
    forall i: nat | SoleAt(s.log, jid, i)
      ensures jid in s.jobs && s.jobs[jid].stats == s.log[i].dir.counters.value.stats
    {
      SoleIs(s.log, jid, i);
    }
  }

  // ---------------------------------------------------------------------------
  // The scan against the tree
  // ---------------------------------------------------------------------------

  /** How many directories below `d`, from entry `i` on, resolve to a job id that
      `f` accepts: walked depth first, with no bound and no queue. */
  function InTree(d: Dir, i: nat, depth: nat, f: Place -> bool): nat
    decreases d, |d.entries| - i
  {
    if i >= |d.entries| then 0 else InEntry(d.entries[i], depth, f) + InTree(d, i + 1, depth, f)
  }

  function InEntry(e: Entry, depth: nat, f: Place -> bool): nat
    decreases e, 0
  {
    if !e.Child? || e.dir.None? then 0
    else if KindOf(e.name, depth).UidDir? then InTree(e.dir.value, 0, depth + 1, f)
    else
      var jid := JobIdOf(KindOf(e.name, depth), e.dir.value);
      if jid != "" && f(Place(jid, e.dir.value)) then 1 else 0
  }

  function InQueue(queue: seq<(Dir, nat)>, f: Place -> bool): nat {
    if queue == [] then 0 else InTree(queue[0].0, 0, queue[0].1, f) + InQueue(queue[1..], f)
  }

  function InScopes(scopes: seq<Option<Dir>>, i: nat, f: Place -> bool): nat
    decreases |scopes| - i
  {
    if i >= |scopes| then 0
    else (if scopes[i].Some? then InTree(scopes[i].value, 0, 0, f) else 0) + InScopes(scopes, i + 1, f)
  }

  function InParents(parents: seq<Parent>, i: nat, f: Place -> bool): nat
    decreases |parents| - i
  {
    if i >= |parents| then 0
    else (if parents[i].opens && parents[i].scopes.Some? then InScopes(parents[i].scopes.value, 0, f) else 0)
         + InParents(parents, i + 1, f)
  }

  lemma {:induction false} QueueGrows(queue: seq<(Dir, nat)>, more: seq<(Dir, nat)>, f: Place -> bool)
    ensures InQueue(queue + more, f) == InQueue(queue, f) + InQueue(more, f)
  {
    if queue == [] {
      assert queue + more == more;
    } else {
      assert (queue + more)[1..] == queue[1..] + more;
      QueueGrows(queue[1..], more, f);
    }
  }

  /** `after` has logged no more than `there` was, and exactly that when nothing
      was skipped. */
  ghost predicate Logged(before: Scan, after: Scan, left: nat, there: nat, f: Place -> bool) {
    && Occurs(after.log, f) + left <= Occurs(before.log, f) + there
    && (after.complete ==> before.complete && Occurs(after.log, f) + left == Occurs(before.log, f) + there)
  }

  lemma ResolveLogs(s: Scan, jid: Jid, d: Dir, now: real, f: Place -> bool)
    requires d.stat.Some?
    ensures Logged(s, Resolve(s, jid, d, now).0, 0, if f(Place(jid, d)) then 1 else 0, f)
  {
    OccursMore(s.log, Place(jid, d), f);
    hide Occurs;
  }

  lemma VisitLogs(s: Scan, e: Entry, depth: nat, cap: nat, now: real, f: Place -> bool)
    ensures var v := Visit(s, e, depth, cap, now);
      Logged(s, v.0, InQueue(v.1, f), InEntry(e, depth, f), f) && (!v.2 ==> !v.0.complete)
  {
    hide Occurs, KindOf, SluidJob, InTree, Resolve;
    var v := Visit(s, e, depth, cap, now);
    if e.Child? && e.dir.Some? {
      var d := e.dir.value;
      var jid := JobIdOf(KindOf(e.name, depth), d);
      assert InQueue([(d, depth + 1)], f) == InTree(d, 0, depth + 1, f) + InQueue([(d, depth + 1)][1..], f);
      assert [(d, depth + 1)][1..] == [];
      if d.stat.Some? {
        ResolveLogs(s.(visited := s.visited + 1), jid, d, now, f);
        ResolveStops(s.(visited := s.visited + 1), jid, d, now);
      }
    }
  }

  lemma ResolveStops(s: Scan, jid: Jid, d: Dir, now: real)
    requires d.stat.Some?
    ensures !Resolve(s, jid, d, now).1 ==> !Resolve(s, jid, d, now).0.complete
  {
  }

  lemma {:induction false} WalkLogs(s: Scan, d: Dir, i: nat, depth: nat, cap: nat, now: real, queue: seq<(Dir, nat)>, f: Place -> bool)
    requires Within(s)
    ensures var w := Walk(s, d, i, depth, cap, now, queue);
      Logged(s, w.0, InQueue(w.1, f), InQueue(queue, f) + InTree(d, i, depth, f), f)
    decreases |d.entries| - i
  {
    hide Occurs, InEntry, Visit, InQueue;
    if i < |d.entries| {
      var v := Visit(s, d.entries[i], depth, cap, now);
      VisitWithin(s, d.entries[i], depth, cap, now);
      VisitLogs(s, d.entries[i], depth, cap, now, f);
      QueueGrows(queue, v.1, f);
      if v.2 {
        WalkLogs(v.0, d, i + 1, depth, cap, now, queue + v.1, f);
      }
    }
  }

  lemma VisitWithin(s: Scan, e: Entry, depth: nat, cap: nat, now: real)
    requires Within(s)
    ensures var v := Visit(s, e, depth, cap, now); v.2 ==> Within(v.0)
  {
  }

  lemma {:induction false} BfsLogs(s: Scan, queue: seq<(Dir, nat)>, cap: nat, now: real, f: Place -> bool)
    requires s.visited <= MAX_VISITED + 1 && (!s.truncated ==> Within(s)) && (s.truncated ==> !s.complete)
    ensures Logged(s, Bfs(s, queue, cap, now), 0, InQueue(queue, f), f)
    decreases |queue| + MAX_VISITED + 1 - s.visited
  {
    hide Walk, Occurs, InTree;
    if queue != [] && !s.truncated {
      var (d, depth) := queue[0];
      if d.stat.None? || d.stat.value in s.seen {
        BfsLogs(s.(complete := false), queue[1..], cap, now, f);
      } else {
        var s1 := s.(seen := s.seen + {d.stat.value});
        WalkLogs(s1, d, 0, depth, cap, now, queue[1..], f);
        WalkCuts(s1, d, 0, depth, cap, now, queue[1..]);
        var w := Walk(s1, d, 0, depth, cap, now, queue[1..]);
        BfsLogs(w.0, w.1, cap, now, f);
      }
    }
  }

  lemma {:induction false} WalkCuts(s: Scan, d: Dir, i: nat, depth: nat, cap: nat, now: real, queue: seq<(Dir, nat)>)
    requires Within(s)
    ensures var r := Walk(s, d, i, depth, cap, now, queue).0; r.truncated ==> !r.complete
    decreases |d.entries| - i
  {
    if i < |d.entries| {
      var v := Visit(s, d.entries[i], depth, cap, now);
      if v.2 {
        WalkCuts(v.0, d, i + 1, depth, cap, now, queue + v.1);
      }
    }
  }

  lemma {:induction false} BfsCuts(s: Scan, queue: seq<(Dir, nat)>, cap: nat, now: real)
    requires s.visited <= MAX_VISITED + 1 && (!s.truncated ==> Within(s)) && (s.truncated ==> !s.complete)
    ensures Bfs(s, queue, cap, now).truncated ==> !Bfs(s, queue, cap, now).complete
    decreases |queue| + MAX_VISITED + 1 - s.visited
  {
    hide Walk;
    if queue != [] && !s.truncated {
      var (d, depth) := queue[0];
      if d.stat.None? || d.stat.value in s.seen {
        BfsCuts(s.(complete := false), queue[1..], cap, now);
      } else {
        var s1 := s.(seen := s.seen + {d.stat.value});
        WalkCuts(s1, d, 0, depth, cap, now, queue[1..]);
        var w := Walk(s1, d, 0, depth, cap, now, queue[1..]);
        BfsCuts(w.0, w.1, cap, now);
      }
    }
  }

  lemma {:induction false} ScopesLog(s: Scan, scopes: seq<Option<Dir>>, i: nat, cap: nat, now: real, f: Place -> bool)
    requires s.visited <= MAX_VISITED + 1 && (!s.truncated ==> Within(s)) && (s.truncated ==> !s.complete)
    ensures var r := Scopes(s, scopes, i, cap, now);
      Logged(s, r, 0, InScopes(scopes, i, f), f) && (r.truncated ==> !r.complete)
    decreases |scopes| - i
  {
    hide Bfs, Occurs, InTree;
    if i < |scopes| && !s.truncated {
      if scopes[i].None? {
        ScopesLog(s.(complete := false), scopes, i + 1, cap, now, f);
      } else {
        var d := scopes[i].value;
        BfsWithin(s, [(d, 0)], cap, now);
        BfsCuts(s, [(d, 0)], cap, now);
        BfsLogs(s, [(d, 0)], cap, now, f);
        assert [(d, 0)][1..] == [];
        assert InQueue([(d, 0)], f) == InTree(d, 0, 0, f) + InQueue([], f);
        ScopesLog(Bfs(s, [(d, 0)], cap, now), scopes, i + 1, cap, now, f);
      }
    }
  }

  lemma {:induction false} ParentsLog(s: Scan, parents: seq<Parent>, i: nat, cap: nat, now: real, f: Place -> bool)
    requires s.visited <= MAX_VISITED + 1 && (!s.truncated ==> Within(s)) && (s.truncated ==> !s.complete)
    ensures Logged(s, Parents(s, parents, i, cap, now).0, 0, InParents(parents, i, f), f)
    decreases |parents| - i
  {
    hide Scopes, Occurs, InScopes;
    if i < |parents| && !s.truncated {
      if !parents[i].opens {
        ParentsLog(s.(complete := false), parents, i + 1, cap, now, f);
      } else if parents[i].scopes.Some? {
        ScopesLog(s, parents[i].scopes.value, 0, cap, now, f);
        ParentsLog(Scopes(s, parents[i].scopes.value, 0, cap, now), parents, i + 1, cap, now, f);
      }
    }
  }

  /** The scan resolves no directory the tree does not have, none more often, and
      all of them when nothing was skipped; then a job id is reported if and only
      if exactly one directory in the tree resolves to it. */
  lemma ScanAgainstTree(previous: map<Identity, Usage>, w: World, cap: nat, now: real, f: Place -> bool, jid: Jid)
    ensures var s := Final(previous, w, cap, now); Occurs(s.log, f) <= InParents(w.parents, 0, f)
    ensures var s := Final(previous, w, cap, now); s.complete ==>
      Occurs(s.log, f) == InParents(w.parents, 0, f) && (jid in s.jobs <==> InParents(w.parents, 0, Of(jid)) == 1)
  {
    hide Parents, VerdictOf, InParents;
    var s := Final(previous, w, cap, now);
    StartKeeps(previous, cap);
    ParentsKeep(Start(previous), w.parents, 0, cap, now);
    ParentsLog(Start(previous), w.parents, 0, cap, now, f);
    ParentsLog(Start(previous), w.parents, 0, cap, now, Of(jid));
    assert JidOk(s, jid);
  }

  // ---------------------------------------------------------------------------
  // Descriptors
  // ---------------------------------------------------------------------------

  /** The process's descriptors. A number is given out once, and only an open one
      can be closed: closing twice, or what was never opened, is ruled out. */
  class Kernel {
    var held: set<Fd>
    var next: Fd

    ghost predicate Valid()
      reads this
    {
      forall fd :: fd in held ==> fd < next
    }

    constructor ()
      ensures Valid() && held == {}
    {
      held, next := {}, 0;
    }

    method Open() returns (fd: Fd)
      requires Valid()
      modifies this
      ensures Valid() && fd !in old(held) && held == old(held) + {fd}
    {
      fd := next;
      held := held + {fd};
      next := next + 1;
    }

    method Close(fd: Fd)
      requires Valid() && fd in held
      modifies this
      ensures Valid() && held == old(held) - {fd}
    {
      held := held - {fd};
    }
  }

  /** `_read_at` */
  method ReadAt<T>(k: Kernel, file: File<T>) returns (r: Option<T>)
    requires k.Valid()
    modifies k
    ensures k.Valid() && k.held == old(k.held)
    ensures r == Result(file)
  {
    if file.NoFile? {
      return None;
    }
    var source := k.Open();
    r := if file.Content? then Some(file.value) else None;
    k.Close(source);
  }

  method JobOfPids(k: Kernel, pids: seq<Proc>) returns (jid: Jid)
    requires k.Valid()
    modifies k
    ensures k.Valid() && k.held == old(k.held)
    ensures jid == PidsJob(pids)
  {
    for i := 0 to |pids|
      invariant k.Valid() && k.held == old(k.held)
      invariant PidsJob(pids) == PidsJob(pids[i..])
    {
      var pid := pids[i];
      assert pids[i..][1..] == pids[i + 1..];
      if pid.numeric {
        if !pid.opens {
          return "";
        }
        var pidFd := k.Open();
        if pid.isRoot.None? {
          k.Close(pidFd);
          return "";
        }
        if pid.isRoot.value {
          var command := ReadAt(k, pid.command);
          k.Close(pidFd);
          if command.None? {
            return "";
          }
          if command.value != "" {
            return command.value;
          }
        } else {
          k.Close(pidFd);
        }
      }
    }
    return "";
  }

  method JobOfStep(k: Kernel, step: StepEntry) returns (jid: Jid)
    requires k.Valid()
    modifies k
    ensures k.Valid() && k.held == old(k.held)
    ensures jid == StepJob(step)
  {
    jid := "";
    if step.opens {
      var stepFd := k.Open();
      if step.daemonOpens {
        var daemonFd := k.Open();
        var pids := ReadAt(k, step.pids);
        if pids.Some? && step.procOpens {
          var procFd := k.Open();
          jid := JobOfPids(k, Firsts(pids.value, MAX_PIDS));
          k.Close(procFd);
        }
        k.Close(daemonFd);
      }
      k.Close(stepFd);
    }
  }

  /** `_sluid_job_id` */
  method SluidJobId(k: Kernel, d: Dir) returns (jid: Jid)
    requires k.Valid()
    modifies k
    ensures k.Valid() && k.held == old(k.held)
    ensures jid == SluidJob(d)
  {
    if d.steps.None? {
      return "";
    }
    var entries := d.steps.value;
    var steps, offset := [], 0;
    while offset < |entries| && offset < MAX_VISITED && |steps| < MAX_STEPS
      invariant 0 <= offset <= |entries| && offset <= MAX_VISITED
      invariant steps == Steps(entries, offset)
    {
      if entries[offset].isStep {
        steps := steps + [entries[offset]];
      }
      offset := offset + 1;
    }
    NoMoreSteps(entries, offset, |entries|);
    for i := 0 to |steps|
      invariant k.Valid() && k.held == old(k.held)
      invariant StepsJob(steps) == StepsJob(steps[i..])
    {
      assert steps[i..][1..] == steps[i + 1..];
      jid := JobOfStep(k, steps[i]);
      if jid != "" {
        return;
      }
    }
    return "";
  }

  lemma {:induction false} NoMoreSteps(entries: seq<StepEntry>, m: nat, n: nat)
    requires m <= n <= |entries| && (m == |entries| || m >= MAX_VISITED || |Steps(entries, m)| >= MAX_STEPS)
    ensures Steps(entries, n) == Steps(entries, m)
  {
    if m < n {
      NoMoreSteps(entries, m, n - 1);
    }
  }

  // ---------------------------------------------------------------------------
  // The scan
  // ---------------------------------------------------------------------------

  /** A queued directory: its descriptor, and what it will answer. */
  datatype Pending = Pending(fd: Fd, dir: Dir, depth: nat)

  function Work(queue: seq<Pending>): (r: seq<(Dir, nat)>)
    ensures |r| == |queue| && forall i :: 0 <= i < |r| ==> r[i] == (queue[i].dir, queue[i].depth)
  {
    if queue == [] then [] else [(queue[0].dir, queue[0].depth)] + Work(queue[1..])
  }

  function FdsOf(queue: seq<Pending>): set<Fd> {
    set p | p in queue :: p.fd
  }

  ghost predicate FdsDiffer(queue: seq<Pending>) {
    forall i, j :: 0 <= i < j < |queue| ==> queue[i].fd != queue[j].fd
  }

  /** Besides `base`, exactly the queue's descriptors are open. */
  ghost predicate Owns(k: Kernel, base: set<Fd>, queue: seq<Pending>)
    reads k
  {
    k.Valid() && k.held == base + FdsOf(queue) && FdsDiffer(queue) && FdsOf(queue) !! base
  }

  lemma OwnsAppend(queue: seq<Pending>, p: Pending)
    requires FdsDiffer(queue) && p.fd !in FdsOf(queue)
    ensures FdsDiffer(queue + [p]) && FdsOf(queue + [p]) == FdsOf(queue) + {p.fd}
  {
    forall i | 0 <= i < |queue| ensures queue[i].fd != p.fd {
      assert queue[i] in queue;
    }
  }

  lemma OwnsRest(queue: seq<Pending>)
    requires queue != [] && FdsDiffer(queue)
    ensures FdsDiffer(queue[1..]) && FdsOf(queue) == FdsOf(queue[1..]) + {queue[0].fd} && queue[0].fd !in FdsOf(queue[1..])
  {
    assert queue == [queue[0]] + queue[1..];
    forall p | p in queue[1..] ensures p.fd != queue[0].fd {
      var i :| 0 <= i < |queue[1..]| && queue[1..][i] == p;
      assert queue[i + 1] == p;
    }
  }

  /** A job or SLUID directory that has just been opened. */
  method VisitJob(k: Kernel, childFd: Fd, kind: Kind, d: Dir, now: real, s: Scan) returns (s': Scan, more: bool)
    requires k.Valid() && childFd in k.held && (kind.JobDir? || kind.SluidDir?)
    modifies k
    ensures k.Valid() && k.held == old(k.held) - {childFd}
    ensures var jid := JobIdOf(kind, d);
      (s', more) == if jid == "" then (s, true) else if d.stat.None? then (s.(complete := false), false)
                    else Resolve(s, jid, d, now)
  {
    hide SluidJob, Sampled, Remembered;
    s', more := s, true;
    var jid;
    if kind.JobDir? {
      jid := kind.jid;
    } else {
      jid := SluidJobId(k, d);
    }
    if jid != "" {
      if d.stat.None? {
        s', more := s'.(complete := false), false;
      } else {
        s' := s'.(kept := s'.kept + {d.stat.value}, log := s'.log + [Place(jid, d)]);
        if jid in s'.jobs || jid in s'.duplicates {
          s' := s'.(jobs := s'.jobs - {jid}, duplicates := s'.duplicates + {jid});
        } else if d.counters.None? {
          s', more := s'.(complete := false), false;
        } else {
          var values := Sampled(s'.previous, d.stat.value, d.counters.value, now);
          s' := s'.(jobs := s'.jobs[jid := values],
                    previous := Remembered(s'.previous, d.stat.value, d.counters.value, now));
        }
      }
    }
    k.Close(childFd);
  }

  method VisitEntry(k: Kernel, e: Entry, depth: nat, cap: nat, now: real, s: Scan, queue: seq<Pending>, ghost base: set<Fd>)
    returns (s': Scan, queue': seq<Pending>, more: bool)
    requires Owns(k, base, queue)
    modifies k
    ensures Owns(k, base, queue')
    ensures var v := Visit(s, e, depth, cap, now); s' == v.0 && Work(queue') == Work(queue) + v.1 && more == v.2
  {
    hide KindOf, JobIdOf, Resolve, FdsOf, FdsDiffer, Work;
    s', queue', more := s, queue, true;
    assert Work(queue) + [] == Work(queue);
    if e.Unreadable? {
      s', more := s'.(complete := false), false;
      return;
    }
    s' := s'.(visited := s'.visited + 1);
    if s'.visited > MAX_VISITED || |s'.jobs| >= cap {
      s', more := s'.(truncated := true, complete := false), false;
      return;
    }
    if e.Unknown? {
      s', more := s'.(complete := false), false;
      return;
    }
    if e.NotDir? {
      return;
    }
    var kind := KindOf(e.name, depth);
    if kind.Other? {
      return;
    }
    if e.dir.None? {
      s', more := s'.(complete := false), false;
      return;
    }
    var childFd := k.Open();
    if kind.UidDir? {
      var p := Pending(childFd, e.dir.value, depth + 1);
      OwnsAppend(queue, p);
      WorkAppend(queue, p);
      queue' := queue + [p];
    } else {
      s', more := VisitJob(k, childFd, kind, e.dir.value, now, s');
    }
  }

  lemma WorkAppend(queue: seq<Pending>, p: Pending)
    ensures Work(queue + [p]) == Work(queue) + [(p.dir, p.depth)]
  {
  }

  /** The loop over one directory's entries. */
  method ScanDir(k: Kernel, d: Dir, depth: nat, cap: nat, now: real, s: Scan, queue: seq<Pending>, ghost base: set<Fd>)
    returns (s': Scan, queue': seq<Pending>)
    requires Owns(k, base, queue) && Within(s)
    modifies k
    ensures Owns(k, base, queue')
    ensures (s', Work(queue')) == Walk(s, d, 0, depth, cap, now, Work(queue))
  {
    hide Owns, Visit, Work;
    s', queue' := s, queue;
    var i, more := 0, true;
    while i < |d.entries| && more
      invariant 0 <= i <= |d.entries|
      invariant Owns(k, base, queue')
      invariant more ==> Within(s') && Walk(s, d, 0, depth, cap, now, Work(queue)) == Walk(s', d, i, depth, cap, now, Work(queue'))
      invariant !more ==> Walk(s, d, 0, depth, cap, now, Work(queue)) == (s', Work(queue'))
      decreases |d.entries| - i, more
    {
      VisitWithin(s', d.entries[i], depth, cap, now);
      s', queue', more := VisitEntry(k, d.entries[i], depth, cap, now, s', queue', base);
      i := i + 1;
    }
  }

  /** The queue of one scope: every descriptor in it is closed, also when the
      scan is cut short. */
  method ScanScope(k: Kernel, scopeFd: Fd, dir: Dir, cap: nat, now: real, s: Scan, ghost base: set<Fd>) returns (s': Scan)
    requires k.Valid() && k.held == base + {scopeFd} && scopeFd !in base && Within(s)
    modifies k
    ensures k.Valid() && k.held == base
    ensures s' == Bfs(s, [(dir, 0)], cap, now)
  {
    hide Walk, Work, FdsOf, FdsDiffer, Bfs, Owns;
    s' := s;
    var queue := [Pending(scopeFd, dir, 0)];
    OwnsFirst(k, queue[0], base);
    while queue != [] && !s'.truncated
      invariant Owns(k, base, queue)
      invariant s'.visited <= MAX_VISITED + 1 && (!s'.truncated ==> Within(s'))
      invariant Bfs(s, [(dir, 0)], cap, now) == Bfs(s', Work(queue), cap, now)
      decreases |queue| + MAX_VISITED + 1 - s'.visited
    {
      s', queue := ScanNext(k, queue, cap, now, s', base);
    }
    BfsEnds(s', Work(queue), cap, now);
    CloseAll(k, queue, base);
  }

  lemma BfsEnds(s: Scan, queue: seq<(Dir, nat)>, cap: nat, now: real)
    requires s.visited <= MAX_VISITED + 1 && (!s.truncated ==> Within(s)) && (queue == [] || s.truncated)
    ensures Bfs(s, queue, cap, now) == s
  {
  }

  /** One turn: the first directory of the queue is examined, listed and closed. */
  method ScanNext(k: Kernel, queue: seq<Pending>, cap: nat, now: real, s: Scan, ghost base: set<Fd>)
    returns (s': Scan, queue': seq<Pending>)
    requires queue != [] && Owns(k, base, queue) && Within(s)
    modifies k
    ensures Owns(k, base, queue')
    ensures s'.visited <= MAX_VISITED + 1 && (!s'.truncated ==> Within(s'))
    ensures Bfs(s, Work(queue), cap, now) == Bfs(s', Work(queue'), cap, now)
    ensures |queue'| + s.visited < |queue| + s'.visited
  {
    hide Walk, Work, FdsOf, FdsDiffer;
    var p := queue[0];
    OwnsRest(queue);
    WorkRest(queue);
    s', queue' := s, queue[1..];
    if p.dir.stat.None? || p.dir.stat.value in s.seen {
      s' := s'.(complete := false);
    } else {
      s' := s'.(seen := s'.seen + {p.dir.stat.value});
      s', queue' := ScanDir(k, p.dir, p.depth, cap, now, s', queue', base + {p.fd});
    }
    k.Close(p.fd);
  }

  lemma OwnsFirst(k: Kernel, p: Pending, base: set<Fd>)
    requires k.Valid() && k.held == base + {p.fd} && p.fd !in base
    ensures Owns(k, base, [p]) && Work([p]) == [(p.dir, p.depth)]
  {
    assert FdsOf([p]) == {p.fd};
  }

  lemma WorkRest(queue: seq<Pending>)
    requires queue != []
    ensures Work(queue) == [(queue[0].dir, queue[0].depth)] + Work(queue[1..])
    ensures Work(queue)[1..] == Work(queue[1..])
  {
  }

  method CloseAll(k: Kernel, queue: seq<Pending>, ghost base: set<Fd>)
    requires Owns(k, base, queue)
    modifies k
    ensures k.Valid() && k.held == base
  {
    hide FdsOf, FdsDiffer;
    var rest := queue;
    while rest != []
      invariant Owns(k, base, rest)
      decreases |rest|
    {
      OwnsRest(rest);
      k.Close(rest[0].fd);
      rest := rest[1..];
    }
    NoFds(rest);
  }

  lemma NoFds(queue: seq<Pending>)
    requires queue == []
    ensures FdsOf(queue) == {}
  {
  }

  /** `_scope_fds` for one parent, with the scan of each scope it yields. */
  method ScanParent(k: Kernel, parent: Parent, cap: nat, now: real, s: Scan) returns (s': Scan, raised: bool)
    requires k.Valid() && Within(s)
    modifies k
    ensures k.Valid() && k.held == old(k.held)
    ensures raised == (parent.opens && parent.scopes.None?)
    ensures s' == if parent.opens && parent.scopes.Some? then Scopes(s, parent.scopes.value, 0, cap, now) else s.(complete := false)
  {
    hide Bfs;
    s', raised := s, false;
    if !parent.opens {
      s' := s'.(complete := false);
      return;
    }
    ghost var base := k.held;
    var fd := k.Open();
    if parent.scopes.None? {
      s', raised := s'.(complete := false), true;
    } else {
      var scopes := parent.scopes.value;
      var i := 0;
      while i < |scopes| && !s'.truncated
        invariant 0 <= i <= |scopes|
        invariant k.Valid() && k.held == base + {fd}
        invariant s'.visited <= MAX_VISITED + 1 && (!s'.truncated ==> Within(s'))
        invariant Scopes(s, scopes, 0, cap, now) == Scopes(s', scopes, i, cap, now)
      {
        if scopes[i].Some? {
          BfsWithin(s', [(scopes[i].value, 0)], cap, now);
          var scopeFd := k.Open();
          s' := ScanScope(k, scopeFd, scopes[i].value, cap, now, s', base + {fd});
        } else {
          s' := s'.(complete := false);
        }
        i := i + 1;
      }
    }
    k.Close(fd);
  }

  /** Both parents. */
  method ScanParents(k: Kernel, parents: seq<Parent>, cap: nat, now: real, s: Scan) returns (s': Scan, raised: bool)
    requires k.Valid() && Within(s)
    modifies k
    ensures k.Valid() && k.held == old(k.held)
    ensures (s', raised) == Parents(s, parents, 0, cap, now)
  {
    hide Scopes;
    s', raised := s, false;
    var i := 0;
    while i < |parents| && !s'.truncated && !raised
      invariant 0 <= i <= |parents|
      invariant k.Valid() && k.held == old(k.held)
      invariant s'.visited <= MAX_VISITED + 1 && (!s'.truncated ==> Within(s'))
      invariant !raised ==> Parents(s, parents, 0, cap, now) == Parents(s', parents, i, cap, now)
      invariant raised ==> Parents(s, parents, 0, cap, now) == (s', true)
      decreases |parents| - i, !raised
    {
      if parents[i].opens && parents[i].scopes.Some? {
        ScopesWithin(s', parents[i].scopes.value, cap, now);
      }
      s', raised := ScanParent(k, parents[i], cap, now, s');
      i := i + 1;
    }
  }

  lemma ScopesWithin(s: Scan, scopes: seq<Option<Dir>>, cap: nat, now: real)
    requires Within(s)
    ensures var r := Scopes(s, scopes, 0, cap, now); r.visited <= MAX_VISITED + 1 && (!r.truncated ==> Within(r))
  {
  }

  /** What is remembered after a scan: nothing when the tree cannot be read, and
      otherwise the readings of directories still there. */
  function Kept(previous: map<Identity, Usage>, w: World, cap: nat, now: real): map<Identity, Usage> {
    if !w.opens || !w.controllers.Content? then map[]
    else
      var (s, raised) := Parents(Start(previous), w.parents, 0, cap, now);
      if raised then s.previous else map id | id in s.previous && id in s.kept :: s.previous[id]
  }

  class NodeSampler {
    const maxJobs: nat
    var jobPrevious: map<Identity, Usage>

    constructor (maxJobs: int)
      ensures 1 <= this.maxJobs <= 4096 && jobPrevious == map[]
    {
      this.maxJobs := if maxJobs < 1 then 1 else if maxJobs > 4096 then 4096 else maxJobs;
      jobPrevious := map[];
    }

    /** `_jobs`: on every way out, also when listing a parent raises, the
        descriptors that are open are those that were open before. */
    method Jobs(k: Kernel, w: World, now: real) returns (jobs: map<Jid, Values>, truncated: bool, raised: bool)
      requires k.Valid()
      modifies k, this`jobPrevious
      ensures k.Valid() && k.held == old(k.held)
      ensures jobPrevious == Kept(old(jobPrevious), w, maxJobs, now)
      ensures !w.opens || !w.controllers.Content? ==> jobs == map[] && !truncated && !raised
      ensures w.opens && w.controllers.Content? ==>
        var (s, r) := Parents(Start(old(jobPrevious)), w.parents, 0, maxJobs, now);
        && raised == r
        && (!r ==> jobs == Final(old(jobPrevious), w, maxJobs, now).jobs && truncated == s.truncated)
    {
      hide Parents;
      jobs, truncated, raised := map[], false, false;
      if !w.opens {
        jobPrevious := map[];
        return;
      }
      var rootFd := k.Open();
      var controllers := ReadAt(k, w.controllers);
      if controllers.None? {
        jobPrevious := map[];
        k.Close(rootFd);
        return;
      }
      var s;
      s, raised := ScanParents(k, w.parents, maxJobs, now, Start(jobPrevious));
      k.Close(rootFd);
      if raised {
        jobPrevious := s.previous;
        return;
      }
      jobPrevious := map id | id in s.previous && id in s.kept :: s.previous[id];
      jobs, truncated := s.jobs, s.truncated;
    }
  }
}
