/**
The log mirror of the collector: a main thread that seeds, resets and drops
jobs, and worker threads that read a job's log slowly and publish its tail in a
world-readable spool.  Each lock-held section and each unlocked unlink is one
atomic step; a per-job seed token tells a worker whether its seed is still the
one the main thread wants mirrored.
*/
module LogMirror {
  import opened Common

  type Jid = string
  type Path = string
  type Token = nat
  newtype Byte = x: int | 0 <= x < 256
  type Bytes = seq<Byte>

  datatype Suffix = Out | Err

  datatype Paths = Paths(out: Path, err: Path) {
    function Of(s: Suffix): Path {
      if s == Out then out else err
    }
  }

  datatype Seed = Seed(paths: Paths, owner: int)

  /** One spool file: `<jid>.out` or `<jid>.err`. */
  datatype Stream = Stream(jid: Jid, suffix: Suffix)

  /** What a read of a source yields besides its bytes; it determines them. */
  datatype Fingerprint = Fingerprint(stat: nat, bytes: Bytes)

  /** One queue row: the validated log paths, when the scheduler gave any, and the owner. */
  datatype Row = Row(jid: Jid, paths: Option<Paths>, uid: int) {
    predicate Trusted() {
      paths.Some? && uid >= 0
    }
  }

  // ---------------------------------------------------------------------------
  // Shared memory and the spool
  // ---------------------------------------------------------------------------

  /** The dictionaries guarded by the log lock, and the spool directory. */
  datatype Shared = Shared(
    paths: map<Jid, Paths>,
    owners: map<Jid, int>,
    fingerprints: map<Stream, Fingerprint>,
    published: set<Stream>,
    tokens: map<Jid, Token>,
    live: set<Jid>,
    inflight: set<Jid>,
    spool: map<Stream, Bytes>,
    nextToken: Token)
  {
    predicate Holds(j: Jid, t: Token) {
      j in tokens && tokens[j] == t
    }

    /** Jobs the mirror knows anything about. */
    function Known(): set<Jid> {
      paths.Keys + owners.Keys + live + (set st | st in published :: st.jid)
    }
  }

  const EMPTY := Shared(map[], map[], map[], {}, map[], {}, {}, map[], 0)

  /** A pending reset of one stream, made when its job's seed was replaced. */
  datatype Reset = Reset(stream: Stream, token: Token)

  function ResetsFor(j: Jid, t: Token): seq<Reset> {
    [Reset(Stream(j, Out), t), Reset(Stream(j, Err), t)]
  }

  function NewToken(sh: Shared, j: Jid): Shared {
    sh.(tokens := sh.tokens[j := sh.nextToken], nextToken := sh.nextToken + 1)
  }

  /** A live row without usable metadata: its previous seed is void. */
  function InvalidateOne(sh: Shared, resets: seq<Reset>, j: Jid): (Shared, seq<Reset>) {
    var sh1 := NewToken(sh, j);
    (sh1.(paths := sh1.paths - {j}, owners := sh1.owners - {j}), resets + ResetsFor(j, sh.nextToken))
  }

  predicate SeedChanged(sh: Shared, j: Jid, seed: Seed) {
    j in sh.paths && (sh.paths[j] != seed.paths || j !in sh.owners || sh.owners[j] != seed.owner)
  }

  /** A live row with a validated seed. */
  function SeedOne(sh: Shared, resets: seq<Reset>, j: Jid, seed: Seed): (Shared, seq<Reset>) {
    var changed := SeedChanged(sh, j, seed);
    var sh1 := if changed || j !in sh.tokens then NewToken(sh, j) else sh;
    (sh1.(paths := sh1.paths[j := seed.paths], owners := sh1.owners[j := seed.owner]),
     if changed then resets + ResetsFor(j, sh.nextToken) else resets)
  }

  function InvalidateAll(sh: Shared, resets: seq<Reset>, rows: seq<Row>): (Shared, seq<Reset>)
    decreases |rows|
  {
    if rows == [] then (sh, resets)
    else if rows[0].Trusted() then InvalidateAll(sh, resets, rows[1..])
    else var (sh1, r1) := InvalidateOne(sh, resets, rows[0].jid); InvalidateAll(sh1, r1, rows[1..])
  }

  function SeedAll(sh: Shared, resets: seq<Reset>, rows: seq<Row>): (Shared, seq<Reset>)
    decreases |rows|
  {
    if rows == [] then (sh, resets)
    else if !rows[0].Trusted() then SeedAll(sh, resets, rows[1..])
    else
      var (sh1, r1) := SeedOne(sh, resets, rows[0].jid, Seed(rows[0].paths.value, rows[0].uid));
      SeedAll(sh1, r1, rows[1..])
  }

  function Ids(rows: seq<Row>): set<Jid> {
    set r | r in rows :: r.jid
  }

  function TrustedIds(rows: seq<Row>): set<Jid> {
    set r | r in rows && r.Trusted() :: r.jid
  }

  function Reseed(sh: Shared, rows: seq<Row>): (Shared, seq<Reset>) {
    var (sh1, r1) := InvalidateAll(sh, [], rows);
    SeedAll(sh1, r1, rows)
  }

  /** The whole first lock-held section: new seeds, then the new live set and
      the jobs handed to the workers. */
  function SeedSection(sh: Shared, rows: seq<Row>, todo: set<Jid>): Shared {
    var sh2 := Reseed(sh, rows).0;
    sh2.(live := Ids(rows), inflight := sh2.inflight + todo)
  }

  function GoneJobs(sh: Shared, rows: seq<Row>): set<Jid> {
    Reseed(sh, rows).0.Known() - Ids(rows)
  }

  function TodoJobs(sh: Shared, rows: seq<Row>, due: set<Jid>): set<Jid> {
    (TrustedIds(rows) - sh.inflight) * due
  }

  /** Forget a stream's bookkeeping and remove its file; with a token, only
      while that token is still the job's current one. */
  function Unpublish(sh: Shared, st: Stream, token: Option<Token>): Shared {
    if token.Some? && !sh.Holds(st.jid, token.value) then sh
    else sh.(published := sh.published - {st}, fingerprints := sh.fingerprints - {st}, spool := sh.spool - {st})
  }

  function PopPaths(sh: Shared, j: Jid): Shared {
    sh.(paths := sh.paths - {j})
  }

  function DropMeta(sh: Shared, j: Jid): Shared {
    sh.(published := sh.published - {Stream(j, Out), Stream(j, Err)},
        owners := sh.owners - {j}, tokens := sh.tokens - {j}, live := sh.live - {j})
  }

  function DropFingerprint(sh: Shared, st: Stream): Shared {
    sh.(fingerprints := sh.fingerprints - {st})
  }

  function Unlink(sh: Shared, st: Stream): Shared {
    sh.(spool := sh.spool - {st})
  }

  /** A worker takes its token, making one when the job has none. */
  function TakeToken(sh: Shared, j: Jid): Shared {
    if j in sh.tokens then sh else NewToken(sh, j)
  }

  function KnownFingerprint(sh: Shared, st: Stream): Option<Fingerprint> {
    if st in sh.spool && st in sh.fingerprints then Some(sh.fingerprints[st]) else None
  }

  predicate MayPublish(sh: Shared, st: Stream, token: Token) {
    st.jid in sh.live && sh.Holds(st.jid, token)
  }

  function Republish(sh: Shared, st: Stream, token: Token): Shared {
    if MayPublish(sh, st, token) then sh.(published := sh.published + {st}) else sh
  }

  function Publish(sh: Shared, st: Stream, token: Token, data: Bytes, fp: Fingerprint): Shared {
    if !MayPublish(sh, st, token) then sh
    else sh.(spool := sh.spool[st := data], fingerprints := sh.fingerprints[st := fp],
             published := sh.published + {st})
  }

  function Finish(sh: Shared, j: Jid): Shared {
    sh.(inflight := sh.inflight - {j})
  }

  /** The bytes a read hands over: none when the source failed, and none when
      its fingerprint is the known one. */
  function ReadData(source: Option<Fingerprint>, known: Option<Fingerprint>): Option<Bytes> {
    if source.None? || source == known then None else Some(source.value.bytes)
  }

  // ---------------------------------------------------------------------------
  // The protocol as a state machine
  // ---------------------------------------------------------------------------

  /** What the main thread still has to do in the current cycle, in order. */
  datatype Action =
    | DoReset(reset: Reset)
    | DoPopPaths(jid: Jid)
    | DoDropMeta(jid: Jid)
    | DoDropFingerprint(stream: Stream)
    | DoUnlink(stream: Stream)
    | DoSubmit(jid: Jid)

  /** Where a worker is within the stream at the head of `todo`. */
  datatype Phase =
    | AtStream
    | Reading(known: Option<Fingerprint>)
    | Got(source: Option<Fingerprint>, data: Option<Bytes>)
    | Seen

  datatype Worker =
    | Queued(jid: Jid)
    | Running(jid: Jid, token: Token, seed: Seed, todo: seq<Suffix>, phase: Phase)
    | Finishing(jid: Jid)
    | Done(jid: Jid)
  {
    function Current(): Stream
      requires Running? && todo != []
    {
      Stream(jid, todo[0])
    }

    function Source(): Path
      requires Running? && todo != []
    {
      seed.paths.Of(todo[0])
    }

    function Skip(): Worker
      requires Running? && todo != []
    {
      Running(jid, token, seed, todo[1..], AtStream)
    }
  }

  /** One completed read, by a worker of this job whose token was current when it
      read: these bytes were the content of this owner's file. */
  datatype ReadEvent = ReadEvent(jid: Jid, token: Token, path: Path, owner: int, bytes: Bytes)

  datatype State = State(sh: Shared, agenda: seq<Action>, workers: seq<Worker>, history: set<ReadEvent>)

  function DropActions(j: Jid): seq<Action> {
    [DoPopPaths(j), DoDropMeta(j),
     DoDropFingerprint(Stream(j, Out)), DoUnlink(Stream(j, Out)),
     DoDropFingerprint(Stream(j, Err)), DoUnlink(Stream(j, Err))]
  }

  function ResetAgenda(resets: seq<Reset>): seq<Action> {
    seq(|resets|, i requires 0 <= i < |resets| => DoReset(resets[i]))
  }

  function DropAgenda(gone: seq<Jid>): seq<Action>
    decreases |gone|
  {
    if gone == [] then [] else DropActions(gone[0]) + DropAgenda(gone[1..])
  }

  function SubmitAgenda(todo: seq<Jid>): seq<Action> {
    seq(|todo|, i requires 0 <= i < |todo| => DoSubmit(todo[i]))
  }

  datatype Step =
    | ShareLogs(rows: seq<Row>, due: set<Jid>, gone: seq<Jid>, todo: seq<Jid>)
    | MainStep
    | WorkerStep(w: nat, source: Option<Fingerprint>)
    | WorkerRaises(w: nat)

  /** The start of a cycle; the orders of `gone` and `todo` are the set iterations' own. */
  ghost function NextShareLogs(s: State, rows: seq<Row>, due: set<Jid>, gone: seq<Jid>, todo: seq<Jid>): State {
    if s.agenda != [] || !Lists(gone, GoneJobs(s.sh, rows)) || !Lists(todo, TodoJobs(s.sh, rows, due)) then s
    else s.(sh := SeedSection(s.sh, rows, set j | j in todo),
            agenda := ResetAgenda(Reseed(s.sh, rows).1) + DropAgenda(gone) + SubmitAgenda(todo))
  }

  function Perform(sh: Shared, a: Action): Shared {
    match a
    case DoReset(r) => Unpublish(sh, r.stream, Some(r.token))
    case DoPopPaths(j) => PopPaths(sh, j)
    case DoDropMeta(j) => DropMeta(sh, j)
    case DoDropFingerprint(st) => DropFingerprint(sh, st)
    case DoUnlink(st) => Unlink(sh, st)
    case DoSubmit(_) => sh
  }

  function NextMain(s: State): State {
    if s.agenda == [] then s
    else
      State(Perform(s.sh, s.agenda[0]), s.agenda[1..],
            if s.agenda[0].DoSubmit? then s.workers + [Queued(s.agenda[0].jid)] else s.workers,
            s.history)
  }

  /** What one atomic worker step does to the shared state and to the worker. */
  function Work(sh: Shared, w: Worker, source: Option<Fingerprint>): (Shared, Worker) {
    match w
    case Queued(j) =>
      var sh1 := TakeToken(sh, j);
      if j !in sh.owners || sh.owners[j] < 0 || j !in sh.paths then (sh1, Finishing(j))
      else (sh1, Running(j, sh1.tokens[j], Seed(sh.paths[j], sh.owners[j]), [Out, Err], AtStream))
    case Finishing(j) => (Finish(sh, j), Done(j))
    case Done(_) => (sh, w)
    case Running(j, t, seed, todo, phase) =>
      if todo == [] then (sh, Finishing(j))
      else
        var st := w.Current();
        match phase
        case AtStream =>
          if w.Source() == "" then (sh, w.Skip())
          else (sh, w.(phase := Reading(KnownFingerprint(sh, st))))
        case Reading(known) =>
          (sh, w.(phase := Got(source, ReadData(source, known))))
        case Got(src, data) =>
          if src.None? then (Unpublish(sh, st, Some(t)), w.Skip())
          else if data.None? then (sh, if st in sh.spool then w.(phase := Seen) else w.Skip())
          else (Publish(sh, st, t, data.value, src.value), w.Skip())
        case Seen => (Republish(sh, st, t), w.Skip())
  }

  function Observed(sh: Shared, w: Worker, source: Option<Fingerprint>): set<ReadEvent> {
    if w.Running? && w.todo != [] && w.phase.Reading? && source.Some? && sh.Holds(w.jid, w.token)
    then {ReadEvent(w.jid, w.token, w.Source(), w.seed.owner, source.value.bytes)} else {}
  }

  function NextWorker(s: State, w: nat, source: Option<Fingerprint>): State {
    if w >= |s.workers| then s
    else
      var (sh1, w1) := Work(s.sh, s.workers[w], source);
      State(sh1, s.agenda, s.workers[w := w1], s.history + Observed(s.sh, s.workers[w], source))
  }

  /** An exception anywhere in a worker jumps to its `finally` clause. */
  function NextRaise(s: State, w: nat): State {
    if w >= |s.workers| || !s.workers[w].Running? then s
    else s.(workers := s.workers[w := Finishing(s.workers[w].jid)])
  }

  ghost function Next(s: State, step: Step): State {
    match step
    case ShareLogs(rows, due, gone, todo) => NextShareLogs(s, rows, due, gone, todo)
    case MainStep => NextMain(s)
    case WorkerStep(w, source) => NextWorker(s, w, source)
    case WorkerRaises(w) => NextRaise(s, w)
  }

  /** The collector starts with an empty spool: leftovers are cleared before the first cycle. */
  const START := State(EMPTY, [], [], {})

  ghost function Run(steps: seq<Step>): State {
    if steps == [] then START else Next(Run(steps[..|steps| - 1]), steps[|steps| - 1])
  }

  // ---------------------------------------------------------------------------
  // The invariant
  // ---------------------------------------------------------------------------

  /** These bytes were read from the job's current (path, owner) seed by a worker
      of the job, under the token that is current now. */
  ghost predicate ReadNow(sh: Shared, st: Stream, bytes: Bytes, history: set<ReadEvent>) {
    && st.jid in sh.paths && st.jid in sh.owners && st.jid in sh.tokens
    && ReadEvent(st.jid, sh.tokens[st.jid], sh.paths[st.jid].Of(st.suffix), sh.owners[st.jid], bytes) in history
  }

  /** The file's job is live, and its bytes were read for it as it is now seeded. */
  ghost predicate Current(s: State, st: Stream) {
    st in s.sh.spool && st.jid in s.sh.live && ReadNow(s.sh, st, s.sh.spool[st], s.history)
  }

  /** The main thread is still going to remove the file in this cycle. */
  ghost predicate Doomed(s: State, st: Stream) {
    || DoUnlink(st) in s.agenda
    || (st.jid in s.sh.tokens && DoReset(Reset(st, s.sh.tokens[st.jid])) in s.agenda)
  }

  ghost predicate SpoolSound(s: State) {
    forall st :: st in s.sh.spool ==> Current(s, st) || Doomed(s, st)
  }

  ghost predicate FingerprintsSound(s: State) {
    forall st :: st in s.sh.spool && st in s.sh.fingerprints ==> s.sh.fingerprints[st].bytes == s.sh.spool[st]
  }

  ghost predicate TokensFresh(s: State) {
    && (forall j :: j in s.sh.tokens ==> s.sh.tokens[j] < s.sh.nextToken)
    && (forall w :: w in s.workers && w.Running? ==> w.token < s.sh.nextToken)
  }

  /** A worker whose token is current works on the current seed, unless its job
      is on its way out. */
  ghost predicate WorkerSound(s: State, w: Worker) {
    w.Running? ==>
      && (s.sh.Holds(w.jid, w.token) ==>
           || (w.jid in s.sh.paths && w.jid in s.sh.owners && Seed(s.sh.paths[w.jid], s.sh.owners[w.jid]) == w.seed)
           || (w.jid !in s.sh.live && DoDropMeta(w.jid) in s.agenda))
      && (w.todo != [] && w.phase.Got? ==>
           && (w.phase.data.Some? ==> w.phase.source.Some? && w.phase.source.value.bytes == w.phase.data.value)
           && (s.sh.Holds(w.jid, w.token) && w.phase.source.Some? ==>
                ReadEvent(w.jid, w.token, w.Source(), w.seed.owner, w.phase.source.value.bytes) in s.history))
  }

  ghost predicate WorkersSound(s: State) {
    forall w :: w in s.workers ==> WorkerSound(s, w)
  }

  ghost predicate AgendaSound(s: State) {
    && (forall j :: DoPopPaths(j) in s.agenda || DoDropMeta(j) in s.agenda ==> j !in s.sh.live)
    && (forall st :: DoUnlink(st) in s.agenda ==> st.jid !in s.sh.live)
    && Paired(s.agenda)
    && (forall r :: DoReset(r) in s.agenda ==> r.stream.jid in s.sh.live)
  }

  ghost predicate Inv(s: State) {
    && SpoolSound(s)
    && FingerprintsSound(s)
    && TokensFresh(s)
    && WorkersSound(s)
    && AgendaSound(s)
  }

  // ---------------------------------------------------------------------------
  // Every step keeps the invariant
  // ---------------------------------------------------------------------------

  /** What holds while the seed loops run: `resets` is not yet on the agenda. */
  ghost predicate SeedingInv(s: State, sh: Shared, resets: seq<Reset>, ids: set<Jid>) {
    && sh.spool == s.sh.spool && sh.fingerprints == s.sh.fingerprints
    && sh.live == s.sh.live && sh.published == s.sh.published && sh.inflight == s.sh.inflight
    && (forall j :: j in sh.tokens ==> sh.tokens[j] < sh.nextToken)
    && (forall w :: w in s.workers && w.Running? ==>
          && w.token < sh.nextToken
          && (sh.Holds(w.jid, w.token) ==>
               s.sh.Holds(w.jid, w.token) && w.jid in sh.paths && w.jid in sh.owners && Seed(sh.paths[w.jid], sh.owners[w.jid]) == w.seed))
    && (forall r :: r in resets ==> r.stream.jid in ids)
    && (forall st :: st in sh.spool ==>
          || (st.jid in sh.tokens && Reset(st, sh.tokens[st.jid]) in resets)
          || ReadNow(sh, st, sh.spool[st], s.history))
  }

  lemma ResetsCover(j: Jid, t: Token, st: Stream)
    requires st.jid == j
    ensures Reset(st, t) in ResetsFor(j, t)
  {
    assert ResetsFor(j, t)[if st.suffix == Out then 0 else 1] == Reset(st, t);
  }

  lemma ResetsOnlyFor(j: Jid, t: Token)
    ensures forall r :: r in ResetsFor(j, t) ==> r.stream.jid == j
  {
  }

  lemma InvalidateOneKeeps(s: State, sh: Shared, resets: seq<Reset>, ids: set<Jid>, j: Jid)
    requires SeedingInv(s, sh, resets, ids) && j in ids
    ensures SeedingInv(s, InvalidateOne(sh, resets, j).0, InvalidateOne(sh, resets, j).1, ids)
  {
    var (sh', resets') := InvalidateOne(sh, resets, j);
    ResetsOnlyFor(j, sh.nextToken);
    forall st | st in sh'.spool && st.jid == j
      ensures Reset(st, sh'.tokens[j]) in resets'
    {
      ResetsCover(j, sh.nextToken, st);
    }
  }

  lemma SeedOneKeeps(s: State, sh: Shared, resets: seq<Reset>, ids: set<Jid>, j: Jid, seed: Seed)
    requires SeedingInv(s, sh, resets, ids) && j in ids
    ensures SeedingInv(s, SeedOne(sh, resets, j, seed).0, SeedOne(sh, resets, j, seed).1, ids)
  {
    var (sh', resets') := SeedOne(sh, resets, j, seed);
    ResetsOnlyFor(j, sh.nextToken);
    forall st | st in sh'.spool && st.jid == j && SeedChanged(sh, j, seed)
      ensures Reset(st, sh'.tokens[j]) in resets'
    {
      ResetsCover(j, sh.nextToken, st);
    }
  }

  lemma {:induction false} InvalidateAllKeeps(s: State, sh: Shared, resets: seq<Reset>, ids: set<Jid>, rows: seq<Row>)
    requires SeedingInv(s, sh, resets, ids) && Ids(rows) <= ids
    ensures SeedingInv(s, InvalidateAll(sh, resets, rows).0, InvalidateAll(sh, resets, rows).1, ids)
    decreases |rows|
  {
    if rows != [] {
      assert rows[0].jid in Ids(rows) && Ids(rows[1..]) <= Ids(rows);
      if rows[0].Trusted() {
        InvalidateAllKeeps(s, sh, resets, ids, rows[1..]);
      } else {
        InvalidateOneKeeps(s, sh, resets, ids, rows[0].jid);
        var (sh1, r1) := InvalidateOne(sh, resets, rows[0].jid);
        InvalidateAllKeeps(s, sh1, r1, ids, rows[1..]);
      }
    }
  }

  lemma {:induction false} SeedAllKeeps(s: State, sh: Shared, resets: seq<Reset>, ids: set<Jid>, rows: seq<Row>)
    requires SeedingInv(s, sh, resets, ids) && Ids(rows) <= ids
    ensures SeedingInv(s, SeedAll(sh, resets, rows).0, SeedAll(sh, resets, rows).1, ids)
    decreases |rows|
  {
    if rows != [] {
      assert rows[0].jid in Ids(rows) && Ids(rows[1..]) <= Ids(rows);
      if !rows[0].Trusted() {
        SeedAllKeeps(s, sh, resets, ids, rows[1..]);
      } else {
        var seed := Seed(rows[0].paths.value, rows[0].uid);
        SeedOneKeeps(s, sh, resets, ids, rows[0].jid, seed);
        var (sh1, r1) := SeedOne(sh, resets, rows[0].jid, seed);
        SeedAllKeeps(s, sh1, r1, ids, rows[1..]);
      }
    }
  }

  lemma ReseedKeeps(s: State, rows: seq<Row>)
    requires Inv(s) && s.agenda == []
    ensures SeedingInv(s, Reseed(s.sh, rows).0, Reseed(s.sh, rows).1, Ids(rows))
  {
    var ids := Ids(rows);
    assert SeedingInv(s, s.sh, [], ids) by {
      forall st | st in s.sh.spool ensures Current(s, st) { }
      forall w | w in s.workers && w.Running? && s.sh.Holds(w.jid, w.token)
        ensures w.jid in s.sh.paths && w.jid in s.sh.owners && Seed(s.sh.paths[w.jid], s.sh.owners[w.jid]) == w.seed
      {
        assert WorkerSound(s, w);
      }
    }
    InvalidateAllKeeps(s, s.sh, [], ids, rows);
    var (sh1, r1) := InvalidateAll(s.sh, [], rows);
    SeedAllKeeps(s, sh1, r1, ids, rows);
  }

  ghost predicate DropMembers(d: seq<Action>, gone: seq<Jid>) {
    && (forall j :: DoPopPaths(j) in d <==> j in gone)
    && (forall j :: DoDropMeta(j) in d <==> j in gone)
    && (forall st :: DoUnlink(st) in d <==> st.jid in gone)
    && (forall a :: a in d ==> !a.DoReset?)
  }

  /** Jobs lose their paths right before they lose the rest. */
  ghost predicate Paired(a: seq<Action>) {
    forall i :: 0 <= i < |a| && a[i].DoPopPaths? ==> i + 1 < |a| && a[i + 1] == DoDropMeta(a[i].jid)
  }

  lemma DropActionsHave(j: Jid)
    ensures DropMembers(DropActions(j), [j]) && Paired(DropActions(j))
  {
    var d := DropActions(j);
    assert d[0] == DoPopPaths(j) && d[1] == DoDropMeta(j);
    forall st: Stream | st.jid == j ensures DoUnlink(st) in d {
      assert d[if st.suffix == Out then 3 else 5] == DoUnlink(st);
    }
  }

  lemma PairedConcat(a: seq<Action>, b: seq<Action>)
    requires Paired(a) && Paired(b)
    ensures Paired(a + b)
  {
    forall i | 0 <= i < |a + b| && (a + b)[i].DoPopPaths?
      ensures i + 1 < |a + b| && (a + b)[i + 1] == DoDropMeta((a + b)[i].jid)
    {
      if i < |a| {
        assert a[i + 1] == (a + b)[i + 1];
      } else {
        assert b[i - |a|] == (a + b)[i];
      }
    }
  }

  lemma {:induction false} DropAgendaHas(gone: seq<Jid>)
    ensures DropMembers(DropAgenda(gone), gone) && Paired(DropAgenda(gone))
    decreases |gone|
  {
    if gone != [] {
      DropAgendaHas(gone[1..]);
      DropActionsHave(gone[0]);
      PairedConcat(DropActions(gone[0]), DropAgenda(gone[1..]));
      assert forall j :: j in gone <==> j in [gone[0]] || j in gone[1..];
    }
  }

  lemma CycleAgenda(resets: seq<Reset>, gone: seq<Jid>, todo: seq<Jid>)
    ensures var a := ResetAgenda(resets) + DropAgenda(gone) + SubmitAgenda(todo);
      && (forall r :: DoReset(r) in a <==> r in resets)
      && (forall j :: DoPopPaths(j) in a <==> j in gone)
      && (forall j :: DoDropMeta(j) in a <==> j in gone)
      && (forall st :: DoUnlink(st) in a <==> st.jid in gone)
      && Paired(a)
  {
    hide DropAgenda, DropActions;
    var p, d, q := ResetAgenda(resets), DropAgenda(gone), SubmitAgenda(todo);
    DropAgendaHas(gone);
    assert Paired(p + d + q) by {
      PairedConcat(p, d);
      PairedConcat(p + d, q);
    }
    hide Paired;
    forall r | r in resets ensures DoReset(r) in p {
      var i :| 0 <= i < |resets| && resets[i] == r;
      assert p[i] == DoReset(r);
    }
  }

  lemma ShareLogsKeeps(s: State, rows: seq<Row>, due: set<Jid>, gone: seq<Jid>, todo: seq<Jid>)
    requires Inv(s)
    ensures Inv(NextShareLogs(s, rows, due, gone, todo))
  {
    var s' := NextShareLogs(s, rows, due, gone, todo);
    if s' != s {
      ReseedKeeps(s, rows);
      var (sh2, resets) := Reseed(s.sh, rows);
      CycleAgenda(resets, gone, todo);
      forall st | st in s'.sh.spool ensures Current(s', st) || Doomed(s', st) {
        assert Current(s, st);
        if st.jid !in Ids(rows) {
          assert st.jid in sh2.Known();
          assert st.jid in gone;
        }
      }
      forall w | w in s'.workers ensures WorkerSound(s', w) {
        assert WorkerSound(s, w);
      }
      assert AgendaSound(s');
    }
  }

  /** Dropping the head of the agenda, for the facts that do not mention the head. */
  lemma AgendaTail(agenda: seq<Action>)
    requires agenda != []
    ensures forall a :: a in agenda <==> a == agenda[0] || a in agenda[1..]
    ensures Paired(agenda) ==> Paired(agenda[1..])
  {
    if Paired(agenda) {
      var t := agenda[1..];
      forall i | 0 <= i < |t| && t[i].DoPopPaths?
        ensures i + 1 < |t| && t[i + 1] == DoDropMeta(t[i].jid)
      {
        assert agenda[i + 1] == t[i];
      }
    }
  }

  lemma MainKeepsSpool(s: State)
    requires Inv(s) && s.agenda != []
    ensures SpoolSound(NextMain(s)) && FingerprintsSound(NextMain(s))
  {
    hide TokensFresh, WorkersSound, Paired, Current, Doomed, AgendaSound, NextMain;
    forall st | st in NextMain(s).sh.spool ensures Current(NextMain(s), st) || Doomed(NextMain(s), st) {
      MainLeavesFiles(s, st);
      MainKeepsStream(s, st);
    }
    forall st ensures st in NextMain(s).sh.spool && st in NextMain(s).sh.fingerprints ==>
      st in s.sh.spool && st in s.sh.fingerprints && NextMain(s).sh.fingerprints[st] == s.sh.fingerprints[st]
      && NextMain(s).sh.spool[st] == s.sh.spool[st]
    {
      MainLeavesFiles(s, st);
    }
  }

  /** The main thread only ever removes files and fingerprints. */
  lemma MainLeavesFiles(s: State, st: Stream)
    requires s.agenda != []
    ensures var s' := NextMain(s);
      && (st in s'.sh.spool ==> st in s.sh.spool && s'.sh.spool[st] == s.sh.spool[st])
      && (st in s'.sh.fingerprints ==> st in s.sh.fingerprints && s'.sh.fingerprints[st] == s.sh.fingerprints[st])
  {
  }

  lemma MainKeepsStream(s: State, st: Stream)
    requires AgendaSound(s) && s.agenda != [] && st in NextMain(s).sh.spool && (Current(s, st) || Doomed(s, st))
    ensures Current(NextMain(s), st) || Doomed(NextMain(s), st)
  {
    AgendaTail(s.agenda);
  }

  lemma MainKeepsWorkers(s: State)
    requires Inv(s) && s.agenda != []
    ensures TokensFresh(NextMain(s)) && WorkersSound(NextMain(s))
  {
    var s', head := NextMain(s), s.agenda[0];
    AgendaTail(s.agenda);
    if head.DoPopPaths? {
      assert s.agenda[1] == DoDropMeta(head.jid) == s'.agenda[0];
    }
    assert forall w :: w in s'.workers ==> w in s.workers || w.Queued?;
    forall w | w in s'.workers && w.Running? ensures WorkerSound(s', w) {
      assert WorkerSound(s, w);
    }
  }

  lemma MainKeeps(s: State)
    requires Inv(s)
    ensures Inv(NextMain(s))
  {
    if s.agenda != [] {
      MainKeepsSpool(s);
      MainKeepsWorkers(s);
      AgendaTail(s.agenda);
      assert AgendaSound(NextMain(s));
    }
  }

  /** What a worker's atomic step may do to the shared state: nothing outside
      its job's stream, and nothing to that unless its token is current. */
  lemma WorkFrame(s: State, w: Worker, source: Option<Fingerprint>)
    ensures var (sh', w') := Work(s.sh, w, source);
      && sh'.live == s.sh.live && sh'.paths == s.sh.paths && sh'.owners == s.sh.owners
      && w'.jid == w.jid
      && (forall j :: j in s.sh.tokens ==> sh'.Holds(j, s.sh.tokens[j]))
      && (forall j :: j in sh'.tokens && j !in s.sh.tokens ==> sh'.tokens[j] == s.sh.nextToken < sh'.nextToken)
      && s.sh.nextToken <= sh'.nextToken
  {
    hide ReadData, KnownFingerprint, Publish, Unpublish;
    if w.Running? && w.todo != [] && w.phase.Got? {
      var st, src, data := w.Current(), w.phase.source, w.phase.data;
      if src.None? {
        UnpublishFrame(s.sh, st, Some(w.token));
      } else if data.Some? {
        PublishFrame(s.sh, st, w.token, data.value, src.value);
      }
    }
  }

  lemma UnpublishFrame(sh: Shared, st: Stream, token: Option<Token>)
    ensures var sh' := Unpublish(sh, st, token);
      sh' == sh.(spool := sh'.spool, fingerprints := sh'.fingerprints, published := sh'.published)
  {
  }

  lemma PublishFrame(sh: Shared, st: Stream, token: Token, data: Bytes, fp: Fingerprint)
    ensures var sh' := Publish(sh, st, token, data, fp);
      sh' == sh.(spool := sh'.spool, fingerprints := sh'.fingerprints, published := sh'.published)
  {
  }

  lemma WorkerKeepsSpool(s: State, w: nat, source: Option<Fingerprint>)
    requires Inv(s) && w < |s.workers|
    ensures SpoolSound(NextWorker(s, w, source)) && FingerprintsSound(NextWorker(s, w, source))
  {
    hide TokensFresh, AgendaSound, WorkerSound, Current, Doomed, NextWorker, WorkersSound, FingerprintsSound;
    forall st | st in NextWorker(s, w, source).sh.spool
      ensures Current(NextWorker(s, w, source), st) || Doomed(NextWorker(s, w, source), st)
    {
      assert st in s.sh.spool ==> Current(s, st) || Doomed(s, st);
      WorkerKeepsStream(s, w, source, st);
    }
    WorkerKeepsFingerprints(s, w, source);
  }

  lemma WorkerKeepsStream(s: State, w: nat, source: Option<Fingerprint>, st: Stream)
    requires Inv(s) && w < |s.workers| && st in NextWorker(s, w, source).sh.spool
    requires st in s.sh.spool ==> Current(s, st) || Doomed(s, st)
    ensures Current(NextWorker(s, w, source), st) || Doomed(NextWorker(s, w, source), st)
  {
    hide SpoolSound, FingerprintsSound, AgendaSound;
    assert WorkerSound(s, s.workers[w]);
    WorkFrame(s, s.workers[w], source);
  }

  lemma WorkerKeepsFingerprints(s: State, w: nat, source: Option<Fingerprint>)
    requires Inv(s) && w < |s.workers|
    ensures FingerprintsSound(NextWorker(s, w, source))
  {
    hide SpoolSound, TokensFresh, AgendaSound, Current, Doomed;
    assert WorkerSound(s, s.workers[w]);
  }

  lemma WorkerStaysSound(s: State, w: nat, source: Option<Fingerprint>)
    requires Inv(s) && w < |s.workers|
    ensures var s' := NextWorker(s, w, source); WorkerSound(s', s'.workers[w])
  {
    hide SpoolSound, FingerprintsSound, AgendaSound, Publish, Unpublish;
    WorkFrame(s, s.workers[w], source);
    assert WorkerSound(s, s.workers[w]);
  }

  lemma WorkerKeepsWorkers(s: State, w: nat, source: Option<Fingerprint>)
    requires Inv(s) && w < |s.workers|
    ensures TokensFresh(NextWorker(s, w, source)) && WorkersSound(NextWorker(s, w, source))
  {
    var s' := NextWorker(s, w, source);
    WorkFrame(s, s.workers[w], source);
    WorkerStaysSound(s, w, source);
    assert TokensFresh(s');
    hide Work;
    forall v | v in s'.workers ensures WorkerSound(s', v) {
      if v != s'.workers[w] {
        assert v in s.workers && WorkerSound(s, v);
      }
    }
  }

  lemma WorkerKeeps(s: State, w: nat, source: Option<Fingerprint>)
    requires Inv(s)
    ensures Inv(NextWorker(s, w, source))
  {
    if w < |s.workers| {
      WorkFrame(s, s.workers[w], source);
      WorkerKeepsSpool(s, w, source);
      WorkerKeepsWorkers(s, w, source);
      hide Work;
      assert AgendaSound(NextWorker(s, w, source));
    }
  }

  lemma RaiseKeeps(s: State, w: nat)
    requires Inv(s)
    ensures Inv(NextRaise(s, w))
  {
    var s' := NextRaise(s, w);
    forall st | st in s'.sh.spool ensures Current(s', st) || Doomed(s', st) {
      assert Current(s, st) || Doomed(s, st);
    }
    forall v | v in s'.workers ensures WorkerSound(s', v) {
      assert v in s.workers || v.Finishing?;
      assert v in s.workers ==> WorkerSound(s, v);
    }
  }

  /** Every interleaving of cycles, main-thread steps, worker steps and worker
      failures reaches only states in which the invariant holds. */
  lemma {:induction false} RunSound(steps: seq<Step>)
    ensures Inv(Run(steps))
    decreases |steps|
  {
    if steps != [] {
      var n := |steps| - 1;
      RunSound(steps[..n]);
      var s := Run(steps[..n]);
      match steps[n]
      case ShareLogs(rows, due, gone, todo) => ShareLogsKeeps(s, rows, due, gone, todo);
      case MainStep => MainKeeps(s);
      case WorkerStep(w, source) => WorkerKeeps(s, w, source);
      case WorkerRaises(w) => RaiseKeeps(s, w);
    }
  }

  // ---------------------------------------------------------------------------
  // What the invariant gives
  // ---------------------------------------------------------------------------

  /** Every spool file belongs to a live job and holds bytes that a worker of that
      job read from its current (path, owner) seed while holding the token that is
      current now, unless the main thread's unlink of it is still pending; between
      cycles there is no exception. */
  lemma EveryFileIsCurrent(steps: seq<Step>, st: Stream)
    ensures var s := Run(steps);
      && (st in s.sh.spool && !Doomed(s, st) ==> Current(s, st))
      && (st in s.sh.spool && s.agenda == [] ==> Current(s, st))
  {
    RunSound(steps);
    var s := Run(steps);
    assert st in s.sh.spool ==> Current(s, st) || Doomed(s, st);
  }

  /** A worker holding an old token neither publishes nor removes anything. */
  lemma StaleWorkerIsInert(s: State, w: nat, source: Option<Fingerprint>)
    requires w < |s.workers| && s.workers[w].Running?
    requires !s.sh.Holds(s.workers[w].jid, s.workers[w].token)
    ensures NextWorker(s, w, source).sh == s.sh
  {
  }

  /** Seed sections only ever hand out tokens that were never used before. */
  lemma {:induction false} InvalidateAllTokens(sh: Shared, resets: seq<Reset>, rows: seq<Row>, j: Jid, t: Token)
    requires t < sh.nextToken && !sh.Holds(j, t)
    ensures var sh' := InvalidateAll(sh, resets, rows).0; t < sh'.nextToken && !sh'.Holds(j, t)
    decreases |rows|
  {
    if rows != [] {
      if rows[0].Trusted() {
        InvalidateAllTokens(sh, resets, rows[1..], j, t);
      } else {
        var (sh1, r1) := InvalidateOne(sh, resets, rows[0].jid);
        InvalidateAllTokens(sh1, r1, rows[1..], j, t);
      }
    }
  }

  lemma {:induction false} SeedAllTokens(sh: Shared, resets: seq<Reset>, rows: seq<Row>, j: Jid, t: Token)
    requires t < sh.nextToken && !sh.Holds(j, t)
    ensures var sh' := SeedAll(sh, resets, rows).0; t < sh'.nextToken && !sh'.Holds(j, t)
    decreases |rows|
  {
    if rows != [] {
      if !rows[0].Trusted() {
        SeedAllTokens(sh, resets, rows[1..], j, t);
      } else {
        var (sh1, r1) := SeedOne(sh, resets, rows[0].jid, Seed(rows[0].paths.value, rows[0].uid));
        SeedAllTokens(sh1, r1, rows[1..], j, t);
      }
    }
  }

  /** The token was handed out, and is not its job's current one. */
  ghost predicate Retired(s: State, j: Jid, t: Token) {
    t < s.sh.nextToken && !s.sh.Holds(j, t)
  }

  lemma StaleAfterOneStep(s: State, step: Step, j: Jid, t: Token)
    requires Retired(s, j, t)
    ensures Retired(Next(s, step), j, t)
  {
    hide NextShareLogs, NextMain, Work;
    match step
    case ShareLogs(rows, due, gone, todo) => StaleAfterShareLogs(s, rows, due, gone, todo, j, t);
    case MainStep => StaleAfterMain(s, j, t);
    case WorkerStep(w, source) =>
      if w < |s.workers| {
        WorkFrame(s, s.workers[w], source);
      }
    case WorkerRaises(_) =>
  }

  lemma StaleAfterMain(s: State, j: Jid, t: Token)
    requires Retired(s, j, t)
    ensures Retired(NextMain(s), j, t)
  {
  }

  lemma StaleAfterShareLogs(s: State, rows: seq<Row>, due: set<Jid>, gone: seq<Jid>, todo: seq<Jid>, j: Jid, t: Token)
    requires Retired(s, j, t)
    ensures Retired(NextShareLogs(s, rows, due, gone, todo), j, t)
  {
    hide InvalidateAll, SeedAll, GoneJobs, TodoJobs, ResetAgenda, DropAgenda, SubmitAgenda;
    InvalidateAllTokens(s.sh, [], rows, j, t);
    var (sh1, r1) := InvalidateAll(s.sh, [], rows);
    SeedAllTokens(sh1, r1, rows, j, t);
  }

  /** Once a token was handed out and is no longer its job's current one, no
      continuation of the run makes it current again. */
  lemma {:induction false} StaleForever(steps: seq<Step>, more: seq<Step>, j: Jid, t: Token)
    requires Retired(Run(steps), j, t)
    ensures Retired(Run(steps + more), j, t)
    decreases |more|
  {
    hide Retired, Next;
    if more == [] {
      assert steps + more == steps;
    } else {
      var n := |more| - 1;
      StaleForever(steps, more[..n], j, t);
      assert (steps + more)[..|steps + more| - 1] == steps + more[..n];
      StaleAfterOneStep(Run(steps + more[..n]), more[n], j, t);
    }
  }

  // ---------------------------------------------------------------------------
  // One undisturbed cycle of the main thread: which files go, which stay
  // ---------------------------------------------------------------------------

  /** The row asks for what is already being mirrored. */
  ghost predicate SameSeed(sh: Shared, r: Row) {
    && r.Trusted() && r.jid in sh.paths && r.jid in sh.owners
    && Seed(r.paths.value, r.uid) == Seed(sh.paths[r.jid], sh.owners[r.jid])
  }

  ghost predicate ResetPending(sh: Shared, resets: seq<Reset>, st: Stream) {
    st.jid in sh.tokens && Reset(st, sh.tokens[st.jid]) in resets
  }

  /** Nothing was done to this job's seed yet. */
  ghost predicate Untouched(base: Shared, sh: Shared, resets: seq<Reset>, j: Jid) {
    && j in base.paths && j in base.owners && j in sh.paths && j in sh.owners
    && sh.paths[j] == base.paths[j] && sh.owners[j] == base.owners[j]
    && forall r :: r in resets ==> r.stream.jid != j
  }

  lemma {:induction false} InvalidateAllDooms(base: Shared, sh: Shared, resets: seq<Reset>, rows: seq<Row>, st: Stream)
    requires ResetPending(sh, resets, st) || Untouched(base, sh, resets, st.jid)
    ensures var (sh', resets') := InvalidateAll(sh, resets, rows);
      if ResetPending(sh, resets, st) || (exists r :: r in rows && r.jid == st.jid && !r.Trusted())
      then ResetPending(sh', resets', st) else Untouched(base, sh', resets', st.jid)
    decreases |rows|
  {
    if rows != [] {
      assert forall r :: r in rows <==> r == rows[0] || r in rows[1..];
      if rows[0].Trusted() {
        InvalidateAllDooms(base, sh, resets, rows[1..], st);
      } else {
        var (sh1, r1) := InvalidateOne(sh, resets, rows[0].jid);
        ResetsOnlyFor(rows[0].jid, sh.nextToken);
        if rows[0].jid == st.jid {
          ResetsCover(st.jid, sh.nextToken, st);
        }
        InvalidateAllDooms(base, sh1, r1, rows[1..], st);
      }
    }
  }

  lemma {:induction false} SeedAllDooms(base: Shared, sh: Shared, resets: seq<Reset>, rows: seq<Row>, st: Stream)
    requires ResetPending(sh, resets, st) || Untouched(base, sh, resets, st.jid)
    ensures var (sh', resets') := SeedAll(sh, resets, rows);
      if ResetPending(sh, resets, st)
         || (exists r :: r in rows && r.jid == st.jid && r.Trusted() && !SameSeed(base, r))
      then ResetPending(sh', resets', st) else Untouched(base, sh', resets', st.jid)
    decreases |rows|
  {
    if rows != [] {
      assert forall r :: r in rows <==> r == rows[0] || r in rows[1..];
      if !rows[0].Trusted() {
        SeedAllDooms(base, sh, resets, rows[1..], st);
      } else {
        var seed := Seed(rows[0].paths.value, rows[0].uid);
        var (sh1, r1) := SeedOne(sh, resets, rows[0].jid, seed);
        ResetsOnlyFor(rows[0].jid, sh.nextToken);
        if rows[0].jid == st.jid {
          ResetsCover(st.jid, sh.nextToken, st);
        }
        SeedAllDooms(base, sh1, r1, rows[1..], st);
      }
    }
  }

  /** At the start of a cycle a mirrored file is doomed exactly when its job is
      off the roster or some row of it carries other metadata than before. */
  lemma CycleDooms(s: State, rows: seq<Row>, due: set<Jid>, gone: seq<Jid>, todo: seq<Jid>, st: Stream)
    requires Inv(s) && s.agenda == [] && st in s.sh.spool
    requires Lists(gone, GoneJobs(s.sh, rows)) && Lists(todo, TodoJobs(s.sh, rows, due))
    ensures Doomed(NextShareLogs(s, rows, due, gone, todo), st) <==>
      st.jid !in Ids(rows) || exists r :: r in rows && r.jid == st.jid && !SameSeed(s.sh, r)
  {
    assert Current(s, st);
    var (sh1, r1) := InvalidateAll(s.sh, [], rows);
    InvalidateAllDooms(s.sh, s.sh, [], rows, st);
    SeedAllDooms(s.sh, sh1, r1, rows, st);
    ReseedKeeps(s, rows);
    CycleAgenda(Reseed(s.sh, rows).1, gone, todo);
  }

  /** The main thread runs to the end of its cycle undisturbed. */
  function RunAgenda(s: State): State
    decreases |s.agenda|
  {
    if s.agenda == [] then s else RunAgenda(NextMain(s))
  }

  lemma MainRemovesDoomed(s: State, st: Stream)
    requires Inv(s) && s.agenda != []
    ensures var s' := NextMain(s);
      && (st in s'.sh.spool && !Doomed(s', st) <==> st in s.sh.spool && !Doomed(s, st))
      && (st in s'.sh.spool ==> s'.sh.spool[st] == s.sh.spool[st])
  {
    hide SpoolSound, FingerprintsSound, TokensFresh, WorkersSound, Doomed;
    MainLeavesFiles(s, st);
    if st in NextMain(s).sh.spool {
      DoomStays(s, st);
    } else if st in s.sh.spool {
      TakenIsDoomed(s, st);
    }
  }

  /** A file that a step of the main thread leaves is doomed as before. */
  lemma DoomStays(s: State, st: Stream)
    requires AgendaSound(s) && s.agenda != [] && st in NextMain(s).sh.spool
    ensures Doomed(NextMain(s), st) <==> Doomed(s, st)
  {
    AgendaTail(s.agenda);
    hide Paired;
  }

  /** And only a doomed one is taken. */
  lemma TakenIsDoomed(s: State, st: Stream)
    requires s.agenda != [] && st in s.sh.spool && st !in NextMain(s).sh.spool
    ensures Doomed(s, st)
  {
    assert s.agenda[0] in s.agenda;
  }

  lemma {:induction false} AgendaRemovesDoomed(s: State, st: Stream)
    requires Inv(s)
    ensures st in RunAgenda(s).sh.spool <==> st in s.sh.spool && !Doomed(s, st)
    ensures st in RunAgenda(s).sh.spool ==> RunAgenda(s).sh.spool[st] == s.sh.spool[st]
    ensures Inv(RunAgenda(s)) && RunAgenda(s).agenda == []
    decreases |s.agenda|
  {
    if s.agenda != [] {
      MainKeeps(s);
      AgendaRemovesDoomed(NextMain(s), st);
      MainRemovesDoomed(s, st);
    }
  }

  /** A cycle that no worker disturbs removes a file exactly when its job left
      the queue or came with other metadata, and leaves every other file's bytes. */
  lemma UndisturbedCycle(s: State, rows: seq<Row>, due: set<Jid>, gone: seq<Jid>, todo: seq<Jid>, st: Stream)
    requires Inv(s) && s.agenda == []
    requires Lists(gone, GoneJobs(s.sh, rows)) && Lists(todo, TodoJobs(s.sh, rows, due))
    ensures var s' := RunAgenda(NextShareLogs(s, rows, due, gone, todo));
      && (st in s'.sh.spool <==>
           st in s.sh.spool && st.jid in Ids(rows) && forall r :: r in rows && r.jid == st.jid ==> SameSeed(s.sh, r))
      && (st in s'.sh.spool ==> s'.sh.spool[st] == s.sh.spool[st])
  {
    var s1 := NextShareLogs(s, rows, due, gone, todo);
    ShareLogsKeeps(s, rows, due, gone, todo);
    ReseedKeeps(s, rows);
    assert s1.sh.spool == s.sh.spool;
    AgendaRemovesDoomed(s1, st);
    if st in s.sh.spool {
      CycleDooms(s, rows, due, gone, todo, st);
    }
  }

  // ---------------------------------------------------------------------------
  // What a cycle stores, and what is then mirrored
  // ---------------------------------------------------------------------------

  /** The last usable row of a job, which decides its paths and its owner. */
  function LastTrusted(rows: seq<Row>, j: Jid): Option<Row> {
    if rows == [] then None
    else
      var r := rows[|rows| - 1];
      if r.jid == j && r.Trusted() then Some(r) else LastTrusted(rows[..|rows| - 1], j)
  }

  /** A job's seed is what its last usable row says, or `otherwise`. */
  ghost predicate SeededBy(sh: Shared, j: Jid, last: Option<Row>, otherwise: Shared) {
    match last
    case Some(r) => j in sh.paths && Some(sh.paths[j]) == r.paths && j in sh.owners && sh.owners[j] == r.uid
    case None =>
      && (j in sh.paths <==> j in otherwise.paths) && (j in sh.paths ==> sh.paths[j] == otherwise.paths[j])
      && (j in sh.owners <==> j in otherwise.owners) && (j in sh.owners ==> sh.owners[j] == otherwise.owners[j])
  }

  lemma LastOfMore(r: Row, rest: seq<Row>, j: Jid)
    ensures LastTrusted([r] + rest, j) ==
      if LastTrusted(rest, j).Some? then LastTrusted(rest, j)
      else if r.jid == j && r.Trusted() then Some(r) else None
    decreases |rest|
  {
    var all := [r] + rest;
    if rest != [] {
      assert all[..|all| - 1] == [r] + rest[..|rest| - 1];
      LastOfMore(r, rest[..|rest| - 1], j);
    } else {
      assert all[..0] == [] && LastTrusted([], j) == None;
    }
  }

  lemma {:induction false} SeedAllStores(sh: Shared, resets: seq<Reset>, rows: seq<Row>, j: Jid)
    ensures SeededBy(SeedAll(sh, resets, rows).0, j, LastTrusted(rows, j), sh)
    decreases |rows|
  {
    if rows != [] {
      assert rows == [rows[0]] + rows[1..];
      LastOfMore(rows[0], rows[1..], j);
      if !rows[0].Trusted() {
        SeedAllStores(sh, resets, rows[1..], j);
      } else {
        var (sh1, r1) := SeedOne(sh, resets, rows[0].jid, Seed(rows[0].paths.value, rows[0].uid));
        SeedAllStores(sh1, r1, rows[1..], j);
      }
    }
  }

  lemma {:induction false} InvalidateAllClears(sh: Shared, resets: seq<Reset>, rows: seq<Row>, j: Jid)
    ensures var sh' := InvalidateAll(sh, resets, rows).0;
      if exists r :: r in rows && r.jid == j && !r.Trusted()
      then j !in sh'.paths && j !in sh'.owners else SeededBy(sh', j, None, sh)
    decreases |rows|
  {
    if rows != [] {
      assert forall r :: r in rows <==> r == rows[0] || r in rows[1..];
      if rows[0].Trusted() {
        InvalidateAllClears(sh, resets, rows[1..], j);
      } else {
        var (sh1, r1) := InvalidateOne(sh, resets, rows[0].jid);
        InvalidateAllClears(sh1, r1, rows[1..], j);
      }
    }
  }

  lemma {:induction false} NoLastTrusted(rows: seq<Row>, j: Jid)
    ensures LastTrusted(rows, j).None? <==> j !in TrustedIds(rows)
    ensures LastTrusted(rows, j).Some? ==>
      var r := LastTrusted(rows, j).value; r in rows && r.jid == j && r.Trusted()
  {
    if rows != [] {
      var n := |rows| - 1;
      NoLastTrusted(rows[..n], j);
      assert rows == rows[..n] + [rows[n]];
      assert TrustedIds(rows) == TrustedIds(rows[..n]) + if rows[n].Trusted() then {rows[n].jid} else {};
    }
  }

  /** A row of the job with validated paths and a user id that is not negative. */
  ghost predicate IsUsable(r: Row, j: Jid) {
    r.jid == j && r.paths.Some? && r.uid >= 0
  }

  /** Which jobs have a usable row, and which row decides. */
  lemma {:induction false} UsableRows(rows: seq<Row>, j: Jid)
    ensures j in TrustedIds(rows) <==> exists r :: r in rows && IsUsable(r, j)
    ensures LastTrusted(rows, j).Some? <==> exists r :: r in rows && IsUsable(r, j)
    ensures forall i: nat :: IsLastUsable(rows, j, i) ==> i < |rows| && LastTrusted(rows, j) == Some(rows[i])
  {
    hide LastTrusted, IsLastUsable;
    NoLastTrusted(rows, j);
    assert j in TrustedIds(rows) <==> exists r :: r in rows && IsUsable(r, j);
    forall i: nat | IsLastUsable(rows, j, i) ensures i < |rows| && LastTrusted(rows, j) == Some(rows[i]) {
      LastUsableIs(rows, j, i);
    }
  }

  ghost predicate IsLastUsable(rows: seq<Row>, j: Jid, i: nat) {
    i < |rows| && IsUsable(rows[i], j) && forall k :: i < k < |rows| ==> !IsUsable(rows[k], j)
  }

  lemma {:induction false} LastUsableIs(rows: seq<Row>, j: Jid, i: nat)
    requires IsLastUsable(rows, j, i)
    ensures i < |rows| && LastTrusted(rows, j) == Some(rows[i])
    decreases |rows|
  {
    var n := |rows| - 1;
    if i < n {
      assert !IsUsable(rows[n], j);
      LastUsableIs(rows[..n], j, i);
    }
  }

  /** The paths and owners are exactly those of the last usable rows. */
  ghost predicate StoresRows(sh: Shared, rows: seq<Row>) {
    && sh.paths.Keys == sh.owners.Keys == TrustedIds(rows)
    && forall j :: j in TrustedIds(rows) ==> SeededBy(sh, j, LastTrusted(rows, j), sh)
  }

  /** The seed section of any state: listed jobs are seeded by their last usable
      row, or by none; other jobs keep what they had. */
  lemma ReseedStores(sh: Shared, rows: seq<Row>, j: Jid)
    ensures var sh' := Reseed(sh, rows).0;
      if j in TrustedIds(rows) then SeededBy(sh', j, LastTrusted(rows, j), sh)
      else if j in Ids(rows) then j !in sh'.paths && j !in sh'.owners
      else SeededBy(sh', j, None, sh)
  {
    hide InvalidateAll, SeedAll, LastTrusted;
    var (sh1, r1) := InvalidateAll(sh, [], rows);
    InvalidateAllClears(sh, [], rows, j);
    SeedAllStores(sh1, r1, rows, j);
    NoLastTrusted(rows, j);
  }

  /** What the rest of a cycle does to one job: nothing to its paths, owner,
      token and liveness unless it is dropped. */
  lemma MainSparesSeeds(s: State, j: Jid)
    requires s.agenda != []
    ensures var sh, sh', a := s.sh, NextMain(s).sh, s.agenda[0];
      if a == DoPopPaths(j) then j !in sh'.paths
      else if a == DoDropMeta(j) then j !in sh'.owners && SeededPathKept(sh, sh', j)
      else SeededBy(sh', j, None, sh)
  {
  }

  ghost predicate SeededPathKept(sh: Shared, sh': Shared, j: Jid) {
    (j in sh'.paths <==> j in sh.paths) && (j in sh'.paths ==> sh'.paths[j] == sh.paths[j])
  }

  lemma {:induction false} AgendaStores(s: State, j: Jid)
    ensures var sh' := RunAgenda(s).sh;
      && (j in sh'.paths <==> j in s.sh.paths && DoPopPaths(j) !in s.agenda)
      && (j in sh'.owners <==> j in s.sh.owners && DoDropMeta(j) !in s.agenda)
      && (j in sh'.paths ==> sh'.paths[j] == s.sh.paths[j])
      && (j in sh'.owners ==> sh'.owners[j] == s.sh.owners[j])
      && sh'.live <= s.sh.live && (j in s.sh.live && DoDropMeta(j) !in s.agenda ==> j in sh'.live)
    decreases |s.agenda|
  {
    if s.agenda != [] {
      AgendaTail(s.agenda);
      AgendaStores(NextMain(s), j);
    }
  }

  /** After a cycle that no worker disturbs, from any state with no work left
      over, exactly the jobs with a usable row have paths and an owner, those of
      their last usable row; the listed jobs, and no others, are live. */
  lemma CycleStoresRows(s: State, rows: seq<Row>, due: set<Jid>, gone: seq<Jid>, todo: seq<Jid>)
    requires s.agenda == []
    requires Lists(gone, GoneJobs(s.sh, rows)) && Lists(todo, TodoJobs(s.sh, rows, due))
    ensures var sh := RunAgenda(NextShareLogs(s, rows, due, gone, todo)).sh; StoresRows(sh, rows) && sh.live == Ids(rows)
  {
    hide Reseed, RunAgenda, LastTrusted, SeededBy;
    var s1 := NextShareLogs(s, rows, due, gone, todo);
    var sh := RunAgenda(s1).sh;
    forall j ensures StoredJob(sh, rows, j) && (j in sh.live <==> j in Ids(rows)) {
      CycleStoresJob(s, rows, due, gone, todo, j);
    }
    StoredJobs(sh, rows);
  }

  /** One job's part of `StoresRows`. */
  ghost predicate StoredJob(sh: Shared, rows: seq<Row>, j: Jid) {
    if j in TrustedIds(rows) then SeededBy(sh, j, LastTrusted(rows, j), sh) && j in sh.paths && j in sh.owners
    else j !in sh.paths && j !in sh.owners
  }

  lemma StoredJobs(sh: Shared, rows: seq<Row>)
    requires forall j :: StoredJob(sh, rows, j)
    ensures StoresRows(sh, rows)
  {
    hide LastTrusted, SeededBy;
    forall j ensures (j in sh.paths <==> j in TrustedIds(rows)) && (j in sh.owners <==> j in TrustedIds(rows)) {
      assert StoredJob(sh, rows, j);
    }
    forall j | j in TrustedIds(rows) ensures SeededBy(sh, j, LastTrusted(rows, j), sh) {
      assert StoredJob(sh, rows, j);
    }
  }

  lemma CycleStoresJob(s: State, rows: seq<Row>, due: set<Jid>, gone: seq<Jid>, todo: seq<Jid>, j: Jid)
    requires s.agenda == []
    requires Lists(gone, GoneJobs(s.sh, rows)) && Lists(todo, TodoJobs(s.sh, rows, due))
    ensures var sh := RunAgenda(NextShareLogs(s, rows, due, gone, todo)).sh;
      StoredJob(sh, rows, j) && (j in sh.live <==> j in Ids(rows))
  {
    hide Reseed, RunAgenda, LastTrusted;
    var s1 := NextShareLogs(s, rows, due, gone, todo);
    AgendaStores(s1, j);
    CycleAgenda(Reseed(s.sh, rows).1, gone, todo);
    ReseedStores(s.sh, rows, j);
    NoLastTrusted(rows, j);
  }

  // ---------------------------------------------------------------------------
  // At most one mirror per job
  // ---------------------------------------------------------------------------

  ghost predicate Exclusive(s: State) {
    && (forall a, b :: 0 <= a < b < |s.workers| && s.workers[a].jid == s.workers[b].jid ==>
          s.workers[a].Done? || s.workers[b].Done?)
    && (forall w :: w in s.workers && !w.Done? ==> w.jid in s.sh.inflight)
    && (forall j :: DoSubmit(j) in s.agenda ==>
          j in s.sh.inflight && forall w :: w in s.workers && w.jid == j ==> w.Done?)
    && (forall a, b :: 0 <= a < b < |s.agenda| && s.agenda[a].DoSubmit? ==> s.agenda[a] != s.agenda[b])
  }

  lemma {:induction false} DropAgendaNoSubmit(gone: seq<Jid>)
    ensures forall a :: a in DropAgenda(gone) ==> !a.DoSubmit?
    decreases |gone|
  {
    if gone != [] {
      DropAgendaNoSubmit(gone[1..]);
    }
  }

  lemma {:induction false} InvalidateAllInflight(sh: Shared, resets: seq<Reset>, rows: seq<Row>)
    ensures InvalidateAll(sh, resets, rows).0.inflight == sh.inflight
    decreases |rows|
  {
    if rows != [] {
      if rows[0].Trusted() {
        InvalidateAllInflight(sh, resets, rows[1..]);
      } else {
        var (sh1, r1) := InvalidateOne(sh, resets, rows[0].jid);
        InvalidateAllInflight(sh1, r1, rows[1..]);
      }
    }
  }

  lemma {:induction false} SeedAllInflight(sh: Shared, resets: seq<Reset>, rows: seq<Row>)
    ensures SeedAll(sh, resets, rows).0.inflight == sh.inflight
    decreases |rows|
  {
    if rows != [] {
      if !rows[0].Trusted() {
        SeedAllInflight(sh, resets, rows[1..]);
      } else {
        var (sh1, r1) := SeedOne(sh, resets, rows[0].jid, Seed(rows[0].paths.value, rows[0].uid));
        SeedAllInflight(sh1, r1, rows[1..]);
      }
    }
  }

  lemma ReseedInflight(sh: Shared, rows: seq<Row>)
    ensures Reseed(sh, rows).0.inflight == sh.inflight
  {
    InvalidateAllInflight(sh, [], rows);
    var (sh1, r1) := InvalidateAll(sh, [], rows);
    SeedAllInflight(sh1, r1, rows);
  }

  lemma ShareLogsExclusive(s: State, rows: seq<Row>, due: set<Jid>, gone: seq<Jid>, todo: seq<Jid>)
    requires Exclusive(s)
    ensures Exclusive(NextShareLogs(s, rows, due, gone, todo))
  {
    var s' := NextShareLogs(s, rows, due, gone, todo);
    if s' != s {
      ReseedInflight(s.sh, rows);
      DropAgendaNoSubmit(gone);
      var p, q := ResetAgenda(Reseed(s.sh, rows).1) + DropAgenda(gone), SubmitAgenda(todo);
      assert s'.agenda == p + q;
      assert forall a :: a in p ==> !a.DoSubmit?;
      forall i | 0 <= i < |p| ensures !s'.agenda[i].DoSubmit? {
        assert s'.agenda[i] == p[i];
      }
      forall a, b | 0 <= a < b < |s'.agenda| && s'.agenda[a].DoSubmit?
        ensures s'.agenda[a] != s'.agenda[b]
      {
        assert s'.agenda[a] == q[a - |p|] && s'.agenda[b] == q[b - |p|];
      }
    }
  }

  lemma MainExclusive(s: State)
    requires Exclusive(s)
    ensures Exclusive(NextMain(s))
  {
    if s.agenda != [] {
      var s', head := NextMain(s), s.agenda[0];
      AgendaTail(s.agenda);
      assert forall w :: w in s'.workers ==> w in s.workers || (head.DoSubmit? && w == Queued(head.jid));
      if head.DoSubmit? {
        assert forall i :: 0 < i < |s.agenda| ==> s.agenda[i] != head;
      }
      assert forall a, b :: 0 <= a < b < |s'.agenda| ==>
          s'.agenda[a] == s.agenda[a + 1] && s'.agenda[b] == s.agenda[b + 1];
    }
  }

  lemma WorkerExclusive(s: State, w: nat, w': Worker, sh': Shared, history: set<ReadEvent>)
    requires Exclusive(s) && w < |s.workers| && w'.jid == s.workers[w].jid
    requires sh'.inflight == if w'.Done? && !s.workers[w].Done? then s.sh.inflight - {w'.jid} else s.sh.inflight
    requires s.workers[w].Done? ==> w'.Done?
    ensures Exclusive(State(sh', s.agenda, s.workers[w := w'], history))
  {
    var s' := State(sh', s.agenda, s.workers[w := w'], history);
    forall v | v in s'.workers && !v.Done? ensures v.jid in sh'.inflight {
      var i :| 0 <= i < |s'.workers| && s'.workers[i] == v;
      assert s.workers[i] in s.workers && s.workers[w] in s.workers;
    }
    forall j | DoSubmit(j) in s'.agenda
      ensures j in sh'.inflight && forall v :: v in s'.workers && v.jid == j ==> v.Done?
    {
      assert s.workers[w] in s.workers;
    }
  }

  /** Only a worker's last step takes its job out of the in-flight set. */
  lemma WorkInflight(sh: Shared, w: Worker, source: Option<Fingerprint>)
    ensures var (sh', w') := Work(sh, w, source);
      && w'.jid == w.jid && (w.Done? ==> w'.Done?)
      && sh'.inflight == if w'.Done? && !w.Done? then sh.inflight - {w'.jid} else sh.inflight
  {
    hide ReadData, KnownFingerprint, Publish, Unpublish;
    if w.Running? && w.todo != [] && w.phase.Got? {
      var st, src, data := w.Current(), w.phase.source, w.phase.data;
      if src.None? {
        UnpublishFrame(sh, st, Some(w.token));
      } else if data.Some? {
        PublishFrame(sh, st, w.token, data.value, src.value);
      }
    }
  }

  lemma StepExclusive(s: State, step: Step)
    requires Exclusive(s)
    ensures Exclusive(Next(s, step))
  {
    hide Exclusive, NextShareLogs, NextMain, Work;
    match step
    case ShareLogs(rows, due, gone, todo) => ShareLogsExclusive(s, rows, due, gone, todo);
    case MainStep => MainExclusive(s);
    case WorkerStep(w, source) =>
      if w < |s.workers| {
        var (sh1, w1) := Work(s.sh, s.workers[w], source);
        WorkInflight(s.sh, s.workers[w], source);
        WorkerExclusive(s, w, w1, sh1, s.history + Observed(s.sh, s.workers[w], source));
      }
    case WorkerRaises(w) =>
      if w < |s.workers| && s.workers[w].Running? {
        WorkerExclusive(s, w, Finishing(s.workers[w].jid), s.sh, s.history);
      }
  }

  /** In every reachable state at most one unfinished worker mirrors a given job. */
  lemma {:induction false} OneMirrorPerJob(steps: seq<Step>)
    ensures Exclusive(Run(steps))
    decreases |steps|
  {
    if steps != [] {
      hide Exclusive, Next;
      var n := |steps| - 1;
      OneMirrorPerJob(steps[..n]);
      StepExclusive(Run(steps[..n]), steps[n]);
    }
  }

  // ---------------------------------------------------------------------------
  // Published streams and their files
  // ---------------------------------------------------------------------------

  /** A worker about to publish the stream again, having seen that its file is there. */
  predicate Rechecked(sh: Shared, w: Worker, st: Stream) {
    w.Running? && w.todo != [] && w.phase.Seen? && w.Current() == st && sh.Holds(w.jid, w.token)
  }

  /** The main thread resets a stream that such a worker is about to publish. */
  ghost predicate ResetUnderReader(s: State, step: Step, st: Stream) {
    && step.MainStep? && s.agenda != [] && s.agenda[0].DoReset? && s.agenda[0].reset.stream == st
    && s.sh.Holds(st.jid, s.agenda[0].reset.token)
    && exists w :: w in s.workers && Rechecked(s.sh, w, st)
  }

  /** The stream's file is there whenever the stream is published or about to be. */
  ghost predicate KeepsFile(s: State, st: Stream) {
    st in s.sh.published || (exists w :: w in s.workers && Rechecked(s.sh, w, st)) ==> st in s.sh.spool
  }

  /** Nothing of the job is published, and no worker could publish it. */
  ghost predicate Cleared(s: State, j: Jid) {
    && j !in s.sh.owners && (forall st :: st in s.sh.published ==> st.jid != j)
    && forall w :: w in s.workers && w.Running? && w.jid == j ==> !s.sh.Holds(j, w.token)
  }

  /** Jobs with an unlink ahead and no drop of their bookkeeping before it. */
  function Unguarded(agenda: seq<Action>): set<Jid>
    decreases |agenda|
  {
    if agenda == [] then {}
    else match agenda[0]
      case DoUnlink(st) => Unguarded(agenda[1..]) + {st.jid}
      case DoDropMeta(j) => Unguarded(agenda[1..]) - {j}
      case _ => Unguarded(agenda[1..])
  }

  ghost predicate DropsInOrder(s: State) {
    forall j :: j in Unguarded(s.agenda) ==> Cleared(s, j)
  }

  lemma {:induction false} UnguardedConcat(a: seq<Action>, b: seq<Action>)
    ensures Unguarded(a + b) <= Unguarded(a) + Unguarded(b)
    decreases |a|
  {
    if a == [] {
      assert a + b == b;
    } else {
      assert (a + b)[0] == a[0] && (a + b)[1..] == a[1..] + b;
      UnguardedConcat(a[1..], b);
    }
  }

  lemma {:induction false} NoUnlinkNoGuard(a: seq<Action>)
    requires forall i :: 0 <= i < |a| ==> !a[i].DoUnlink?
    ensures Unguarded(a) == {}
    decreases |a|
  {
    if a != [] {
      NoUnlinkNoGuard(a[1..]);
    }
  }

  lemma DropActionsGuarded(j: Jid)
    ensures Unguarded(DropActions(j)) == {}
  {
    var a := DropActions(j);
    assert a[1..][1..] == a[2..] && a[2..][1..] == a[3..] && a[3..][1..] == a[4..];
    assert a[4..][1..] == a[5..] && a[5..][1..] == [];
    assert Unguarded(a[5..]) == {j};
    assert Unguarded(a[4..]) == {j};
    assert Unguarded(a[3..]) == {j};
    assert Unguarded(a[2..]) == {j};
    assert Unguarded(a[1..]) == {};
  }

  lemma {:induction false} DropAgendaGuarded(gone: seq<Jid>)
    ensures Unguarded(DropAgenda(gone)) == {}
    decreases |gone|
  {
    if gone != [] {
      DropActionsGuarded(gone[0]);
      DropAgendaGuarded(gone[1..]);
      UnguardedConcat(DropActions(gone[0]), DropAgenda(gone[1..]));
    }
  }

  lemma CycleGuarded(resets: seq<Reset>, gone: seq<Jid>, todo: seq<Jid>)
    ensures Unguarded(ResetAgenda(resets) + DropAgenda(gone) + SubmitAgenda(todo)) == {}
  {
    hide Unguarded, DropAgenda;
    NoUnlinkNoGuard(ResetAgenda(resets));
    DropAgendaGuarded(gone);
    NoUnlinkNoGuard(SubmitAgenda(todo));
    UnguardedConcat(ResetAgenda(resets), DropAgenda(gone));
    UnguardedConcat(ResetAgenda(resets) + DropAgenda(gone), SubmitAgenda(todo));
  }

  lemma MainDropsInOrder(s: State)
    requires DropsInOrder(s)
    ensures DropsInOrder(NextMain(s))
  {
    var s' := NextMain(s);
    forall j | j in Unguarded(s'.agenda) ensures Cleared(s', j) {
      if j in Unguarded(s.agenda) {
        assert Cleared(s, j);
      } else {
        assert s.agenda[0] == DoDropMeta(j);
        forall st: Stream | st.jid == j ensures st !in s'.sh.published {
          assert st.suffix.Out? || st.suffix.Err?;
        }
      }
    }
  }

  lemma WorkerKeepsCleared(s: State, w: nat, source: Option<Fingerprint>, j: Jid)
    requires TokensFresh(s) && Cleared(s, j) && w < |s.workers|
    ensures Cleared(NextWorker(s, w, source), j)
  {
    hide Work;
    var s', wk := NextWorker(s, w, source), s.workers[w];
    assert wk in s.workers;
    WorkFrame(s, wk, source);
    if wk.jid == j {
      UnseededPublishesNothing(s.sh, wk, source);
    }
    forall st | st in s'.sh.published ensures st.jid != j {
      if wk.jid != j == st.jid {
        OthersSpareStream(s.sh, wk, source, st);
      }
    }
    forall v | v in s'.workers && v.Running? && v.jid == j ensures !s'.sh.Holds(j, v.token) {
      assert v in s.workers || v == s'.workers[w];
    }
  }

  /** A job without an owner and under no worker's current token. */
  lemma UnseededPublishesNothing(sh: Shared, w: Worker, source: Option<Fingerprint>)
    requires w.jid !in sh.owners && (w.Running? ==> !sh.Holds(w.jid, w.token))
    ensures var (sh', w') := Work(sh, w, source);
      sh'.published <= sh.published && (w'.Running? ==> w.Running? && w'.token == w.token)
  {
    hide ReadData, KnownFingerprint;
  }

  lemma StepDropsInOrder(s: State, step: Step)
    requires Inv(s) && DropsInOrder(s)
    ensures DropsInOrder(Next(s, step))
  {
    hide NextShareLogs, NextMain, Work, Cleared, Unguarded, SpoolSound, FingerprintsSound, WorkersSound, AgendaSound;
    match step
    case ShareLogs(rows, due, gone, todo) => ShareLogsInOrder(s, rows, due, gone, todo);
    case MainStep => MainDropsInOrder(s);
    case WorkerStep(w, source) =>
      if w < |s.workers| {
        forall j | j in Unguarded(s.agenda) ensures Cleared(NextWorker(s, w, source), j) {
          WorkerKeepsCleared(s, w, source, j);
        }
      }
    case WorkerRaises(w) =>
      forall j | j in Unguarded(s.agenda) ensures Cleared(NextRaise(s, w), j) {
        RaiseKeepsCleared(s, w, j);
      }
  }

  lemma RaiseKeepsCleared(s: State, w: nat, j: Jid)
    requires Cleared(s, j)
    ensures Cleared(NextRaise(s, w), j)
  {
  }

  lemma ShareLogsInOrder(s: State, rows: seq<Row>, due: set<Jid>, gone: seq<Jid>, todo: seq<Jid>)
    requires DropsInOrder(s)
    ensures DropsInOrder(NextShareLogs(s, rows, due, gone, todo))
  {
    hide Cleared, Unguarded, GoneJobs, TodoJobs, Reseed;
    CycleGuarded(Reseed(s.sh, rows).1, gone, todo);
  }

  lemma {:induction false} RunDropsInOrder(steps: seq<Step>)
    ensures DropsInOrder(Run(steps))
    decreases |steps|
  {
    if steps != [] {
      hide DropsInOrder, Inv, Next;
      var n := |steps| - 1;
      RunDropsInOrder(steps[..n]);
      RunSound(steps[..n]);
      StepDropsInOrder(Run(steps[..n]), steps[n]);
    } else {
      assert Unguarded(START.agenda) == {};
    }
  }

  /** A step of the main thread takes a file that is published, or about to be,
      exactly when it resets the stream under a worker that has just checked it. */
  lemma MainLosesFile(s: State, st: Stream)
    requires DropsInOrder(s) && KeepsFile(s, st)
    ensures KeepsFile(NextMain(s), st) <==> !ResetUnderReader(s, MainStep, st)
  {
    if s.agenda != [] {
      var s', head := NextMain(s), s.agenda[0];
      if ResetUnderReader(s, MainStep, st) {
        var w :| w in s.workers && Rechecked(s.sh, w, st);
        assert w in s'.workers && Rechecked(s'.sh, w, st) && st !in s'.sh.spool;
      } else {
        if head.DoUnlink? && head.stream == st {
          assert Cleared(s, st.jid);
        }
        if w :| w in s'.workers && Rechecked(s'.sh, w, st) {
          assert w in s.workers && Rechecked(s.sh, w, st);
        }
      }
    }
  }

  /** A step of some other job's worker, or of a finished one. */
  lemma OthersSpareStream(sh: Shared, w: Worker, source: Option<Fingerprint>, st: Stream)
    requires w.jid == st.jid ==> w.Done?
    ensures var sh' := Work(sh, w, source).0;
      (st in sh'.spool <==> st in sh.spool) && (st in sh'.published <==> st in sh.published)
  {
    hide ReadData, KnownFingerprint, Publish, Unpublish;
    if w.Running? && w.todo != [] && w.phase.Got? && w.Current() != st {
      var mine, src, data := w.Current(), w.phase.source, w.phase.data;
      if src.None? {
        UnpublishSpares(sh, mine, Some(w.token), st);
      } else if data.Some? {
        PublishSpares(sh, mine, w.token, data.value, src.value, st);
      }
    }
  }

  lemma UnpublishSpares(sh: Shared, mine: Stream, token: Option<Token>, st: Stream)
    requires mine != st
    ensures var sh' := Unpublish(sh, mine, token);
      (st in sh'.spool <==> st in sh.spool) && (st in sh'.published <==> st in sh.published)
  {
  }

  lemma PublishSpares(sh: Shared, mine: Stream, token: Token, data: Bytes, fp: Fingerprint, st: Stream)
    requires mine != st
    ensures var sh' := Publish(sh, mine, token, data, fp);
      (st in sh'.spool <==> st in sh.spool) && (st in sh'.published <==> st in sh.published)
  {
  }

  /** A worker's own step: publishing writes the file, checking looks at it. */
  lemma OwnStepKeepsFile(sh: Shared, w: Worker, source: Option<Fingerprint>, st: Stream)
    requires st in sh.published || Rechecked(sh, w, st) ==> st in sh.spool
    ensures var (sh', w') := Work(sh, w, source); st in sh'.published || Rechecked(sh', w', st) ==> st in sh'.spool
  {
    hide ReadData;
  }

  /** No step of a worker does: a worker that may still act on a job is the only one. */
  lemma WorkerKeepsFile(s: State, w: nat, source: Option<Fingerprint>, st: Stream)
    requires TokensFresh(s) && Exclusive(s) && KeepsFile(s, st) && w < |s.workers|
    ensures KeepsFile(NextWorker(s, w, source), st)
  {
    hide Work;
    var s', wk := NextWorker(s, w, source), s.workers[w];
    assert wk in s.workers;
    assert Rechecked(s.sh, wk, st) ==> st in s.sh.spool;
    OwnStepKeepsFile(s.sh, wk, source, st);
    if v :| v in s'.workers && Rechecked(s'.sh, v, st) {
      var i :| 0 <= i < |s'.workers| && s'.workers[i] == v;
      if i != w {
        assert v == s.workers[i] && v in s.workers && v.jid == st.jid;
        if wk.jid == st.jid {
          assert wk.Done? by {
            if i < w {
              assert s.workers[i].jid == s.workers[w].jid;
            } else {
              assert s.workers[w].jid == s.workers[i].jid;
            }
          }
        }
        OthersSpareStream(s.sh, wk, source, st);
        WorkFrame(s, wk, source);
        assert Rechecked(s.sh, v, st);
      }
    }
  }

  lemma ShareLogsKeepsFile(s: State, rows: seq<Row>, due: set<Jid>, gone: seq<Jid>, todo: seq<Jid>, st: Stream)
    requires TokensFresh(s) && KeepsFile(s, st)
    requires Inv(s)
    ensures KeepsFile(NextShareLogs(s, rows, due, gone, todo), st)
  {
    var s' := NextShareLogs(s, rows, due, gone, todo);
    if s' != s {
      ReseedKeeps(s, rows);
      if w :| w in s'.workers && Rechecked(s'.sh, w, st) {
        assert w in s.workers;
        if !s.sh.Holds(w.jid, w.token) {
          StaleAfterShareLogs(s, rows, due, gone, todo, w.jid, w.token);
        }
        assert Rechecked(s.sh, w, st);
      }
    }
  }

  /** In a reachable state in which the stream keeps its file, the only step
      that can change that is a reset under a worker that has just checked it. */
  lemma LosesFileIff(steps: seq<Step>, step: Step, st: Stream)
    requires KeepsFile(Run(steps), st)
    ensures KeepsFile(Run(steps + [step]), st) <==> !ResetUnderReader(Run(steps), step, st)
  {
    hide NextShareLogs, NextMain, Work, KeepsFile, DropsInOrder, Exclusive;
    var s := Run(steps);
    assert (steps + [step])[..|steps|] == steps;
    RunSound(steps);
    match step
    case ShareLogs(rows, due, gone, todo) => ShareLogsKeepsFile(s, rows, due, gone, todo, st);
    case MainStep =>
      RunDropsInOrder(steps);
      MainLosesFile(s, st);
    case WorkerStep(w, source) =>
      if w < |s.workers| {
        OneMirrorPerJob(steps);
        WorkerKeepsFile(s, w, source, st);
      }
    case WorkerRaises(w) => RaiseKeepsFile(s, w, st);
  }

  lemma RaiseKeepsFile(s: State, w: nat, st: Stream)
    requires KeepsFile(s, st)
    ensures KeepsFile(NextRaise(s, w), st)
  {
  }

  ghost predicate SparesReaders(steps: seq<Step>, st: Stream) {
    forall k :: 0 <= k < |steps| ==> !ResetUnderReader(Run(steps[..k]), steps[k], st)
  }

  lemma SparedBefore(steps: seq<Step>, st: Stream)
    requires SparesReaders(steps, st) && steps != []
    ensures SparesReaders(steps[..|steps| - 1], st)
  {
    hide ResetUnderReader, Run;
    var p := steps[..|steps| - 1];
    forall k | 0 <= k < |p| ensures !ResetUnderReader(Run(p[..k]), p[k], st) {
      assert p[..k] == steps[..k];
    }
  }

  /** Every published stream has its file after every run without such a reset. */
  lemma {:induction false} PublishedHasItsFile(steps: seq<Step>, st: Stream)
    requires SparesReaders(steps, st)
    ensures KeepsFile(Run(steps), st)
    decreases |steps|
  {
    if steps != [] {
      hide ResetUnderReader, KeepsFile, Run;
      var n := |steps| - 1;
      SparedBefore(steps, st);
      PublishedHasItsFile(steps[..n], st);
      LosesFileIff(steps[..n], steps[n], st);
      assert steps[..n] + [steps[n]] == steps;
    }
  }

  /** And such a reset does lose it: the worker's next step publishes a stream
      that has no file, also between cycles. */
  lemma ResetUnderReaderLosesIt(steps: seq<Step>, st: Stream)
    requires ResetUnderReader(Run(steps), MainStep, st)
    ensures exists w: nat, s' | s' == Next(Next(Run(steps), MainStep), WorkerStep(w, None)) ::
      st in s'.sh.published && st !in s'.sh.spool
  {
    var s := Run(steps);
    RunSound(steps);
    var w :| w in s.workers && Rechecked(s.sh, w, st);
    var i :| 0 <= i < |s.workers| && s.workers[i] == w;
    var s1 := Next(s, MainStep);
    assert s.agenda[0] in s.agenda && DoReset(s.agenda[0].reset) == s.agenda[0];
    assert st.jid in s.sh.live;
    assert s1.workers[i] == w && Rechecked(s1.sh, w, st) && st !in s1.sh.spool;
    var s2 := Next(s1, WorkerStep(i, None));
    assert st in s2.sh.published && st !in s2.sh.spool;
  }

  // A run that gets there: job "1" is mirrored once; a second worker of it is
  // queued when the job's log path changes to another link to the same file.

  const LOG := Fingerprint(7, [65])

  function RowOf(path: Path): seq<Row> {
    [Row("1", Some(Paths(path, "")), 5)]
  }

  function Mirroring(path: Path, token: Token, inflight: set<Jid>): Shared {
    Shared(map["1" := Paths(path, "")], map["1" := 5], map[Stream("1", Out) := LOG], {Stream("1", Out)},
           map["1" := token], {"1"}, inflight, map[Stream("1", Out) := LOG.bytes], token + 1)
  }

  function Reader(path: Path, token: Token, phase: Phase): Worker {
    Running("1", token, Seed(Paths(path, ""), 5), [Out, Err], phase)
  }

  const READ := ReadEvent("1", 0, "/a", 5, LOG.bytes)

  lemma FirstMirror() returns (steps: seq<Step>)
    ensures Run(steps) == State(Mirroring("/a", 0, {}), [], [Done("1")], {READ})
  {
    hide NextShareLogs;
    steps := [ShareLogs(RowOf("/a"), {"1"}, [], ["1"])];
    FirstCycle();
    var sh0 := Run(steps).sh;
    steps := steps + [MainStep];
    assert Run(steps) == State(sh0, [], [Queued("1")], {});
    steps := steps + [WorkerStep(0, None)];
    assert Run(steps) == State(sh0, [], [Reader("/a", 0, AtStream)], {});
    steps := steps + [WorkerStep(0, None)];
    assert Run(steps) == State(sh0, [], [Reader("/a", 0, Reading(None))], {});
    steps := steps + [WorkerStep(0, Some(LOG))];
    assert Run(steps) == State(sh0, [], [Reader("/a", 0, Got(Some(LOG), Some(LOG.bytes)))], {READ});
    steps := steps + [WorkerStep(0, None)];
    assert Run(steps) == State(Mirroring("/a", 0, {"1"}), [], [Reader("/a", 0, AtStream).Skip()], {READ});
    steps := steps + [WorkerRaises(0)];
    assert Run(steps) == State(Mirroring("/a", 0, {"1"}), [], [Finishing("1")], {READ});
    steps := steps + [WorkerStep(0, None)];
  }

  lemma OneRow(sh: Shared, path: Path)
    requires sh.Known() <= {"1"}
    ensures Ids(RowOf(path)) == TrustedIds(RowOf(path)) == {"1"}
    ensures Reseed(sh, RowOf(path)) == SeedOne(sh, [], "1", Seed(Paths(path, ""), 5))
    ensures GoneJobs(sh, RowOf(path)) == {}
  {
    var rows := RowOf(path);
    assert rows[0] in rows && rows[1..] == [];
    assert InvalidateAll(sh, [], rows) == InvalidateAll(sh, [], rows[1..]) == (sh, []);
    var (sh1, r1) := SeedOne(sh, [], "1", Seed(Paths(path, ""), 5));
    assert SeedAll(sh, [], rows) == SeedAll(sh1, r1, rows[1..]) == (sh1, r1);
  }

  lemma OneRowCycle(s: State, path: Path, due: set<Jid>, todo: seq<Jid>)
    requires s.agenda == [] && s.sh.Known() <= {"1"} && Lists(todo, TodoJobs(s.sh, RowOf(path), due))
    ensures var (sh1, resets) := SeedOne(s.sh, [], "1", Seed(Paths(path, ""), 5));
      NextShareLogs(s, RowOf(path), due, [], todo) ==
        s.(sh := sh1.(live := {"1"}, inflight := sh1.inflight + set j | j in todo),
           agenda := ResetAgenda(resets) + SubmitAgenda(todo))
  {
    hide SeedOne, TodoJobs, Reseed, SubmitAgenda, ResetAgenda;
    OneRow(s.sh, path);
    assert Lists<Jid>([], GoneJobs(s.sh, RowOf(path)));
    assert DropAgenda([]) == [];
    var (sh1, resets) := Reseed(s.sh, RowOf(path));
    assert SeedSection(s.sh, RowOf(path), set j | j in todo) ==
      sh1.(live := {"1"}, inflight := sh1.inflight + set j | j in todo);
  }

  lemma FirstCycle()
    ensures NextShareLogs(START, RowOf("/a"), {"1"}, [], ["1"]) ==
      State(Mirroring("/a", 0, {"1"}).(fingerprints := map[], published := {}, spool := map[]), [DoSubmit("1")], [], {})
  {
    OneRow(EMPTY, "/a");
    OneRowCycle(START, "/a", {"1"}, ["1"]);
  }

  lemma SecondCycle()
    ensures NextShareLogs(State(Mirroring("/a", 0, {}), [], [Done("1")], {READ}), RowOf("/a"), {"1"}, [], ["1"]) ==
      State(Mirroring("/a", 0, {"1"}), [DoSubmit("1")], [Done("1")], {READ})
  {
    hide NextShareLogs, Reseed, TrustedIds;
    OneRow(Mirroring("/a", 0, {}), "/a");
    OneRowCycle(State(Mirroring("/a", 0, {}), [], [Done("1")], {READ}), "/a", {"1"}, ["1"]);
  }

  lemma ChangedSeed()
    ensures SeedOne(Mirroring("/a", 0, {"1"}), [], "1", Seed(Paths("/b", ""), 5)) ==
      (Mirroring("/b", 1, {"1"}), ResetsFor("1", 1))
  {
    var sh, sh' := Mirroring("/a", 0, {"1"}), Mirroring("/b", 1, {"1"});
    assert sh.paths["1" := Paths("/b", "")] == sh'.paths && sh.owners["1" := 5] == sh'.owners;
    assert sh.tokens["1" := 1] == sh'.tokens && [] + ResetsFor("1", 1) == ResetsFor("1", 1);
  }

  lemma ThirdCycle()
    ensures NextShareLogs(State(Mirroring("/a", 0, {"1"}), [], [Done("1"), Queued("1")], {READ}), RowOf("/b"), {}, [], []) ==
      State(Mirroring("/b", 1, {"1"}), ResetAgenda(ResetsFor("1", 1)), [Done("1"), Queued("1")], {READ})
  {
    hide NextShareLogs, Reseed, TrustedIds, GoneJobs, SeedOne, ResetsFor;
    ChangedSeed();
    var none: seq<Jid> := [];
    var sh := Mirroring("/b", 1, {"1"});
    assert sh.inflight + (set j | j in none) == sh.inflight && sh.live == {"1"};
    assert ResetAgenda(ResetsFor("1", 1)) + SubmitAgenda(none) == ResetAgenda(ResetsFor("1", 1));
    OneRow(Mirroring("/a", 0, {"1"}), "/b");
    OneRowCycle(State(Mirroring("/a", 0, {"1"}), [], [Done("1"), Queued("1")], {READ}), "/b", {}, []);
  }

  lemma QueuedAgain() returns (steps: seq<Step>)
    ensures Run(steps) == State(Mirroring("/b", 1, {"1"}), ResetAgenda(ResetsFor("1", 1)), [Done("1"), Queued("1")], {READ})
  {
    hide NextShareLogs;
    steps := FirstMirror();
    steps := steps + [ShareLogs(RowOf("/a"), {"1"}, [], ["1"])];
    SecondCycle();
    steps := steps + [MainStep];
    assert Run(steps) == State(Mirroring("/a", 0, {"1"}), [], [Done("1"), Queued("1")], {READ});
    steps := steps + [ShareLogs(RowOf("/b"), {}, [], [])];
    ThirdCycle();
  }

  /** Such a reset is reachable. */
  lemma ResetUnderReaderHappens() returns (steps: seq<Step>)
    ensures ResetUnderReader(Run(steps), MainStep, Stream("1", Out))
  {
    hide NextShareLogs;
    steps := QueuedAgain();
    var s := Run(steps);
    steps := steps + [WorkerStep(1, None)];
    assert Run(steps) == s.(workers := [Done("1"), Reader("/b", 1, AtStream)]);
    steps := steps + [WorkerStep(1, None)];
    assert Run(steps) == s.(workers := [Done("1"), Reader("/b", 1, Reading(Some(LOG)))]);
    steps := steps + [WorkerStep(1, Some(LOG))];
    assert Run(steps).workers == [Done("1"), Reader("/b", 1, Got(Some(LOG), None))];
    steps := steps + [WorkerStep(1, None)];
    var w := Reader("/b", 1, Seen);
    assert Run(steps).workers == [Done("1"), w];
    assert w in Run(steps).workers && Rechecked(Run(steps).sh, w, Stream("1", Out));
  }

  // ---------------------------------------------------------------------------
  // The functions of the collector, over its module-level dictionaries
  // ---------------------------------------------------------------------------

  /** What the agenda does to the shared state when no worker runs in between. */
  function PerformAll(sh: Shared, agenda: seq<Action>): Shared
    decreases |agenda|
  {
    if agenda == [] then sh else PerformAll(Perform(sh, agenda[0]), agenda[1..])
  }

  lemma {:induction false} RunAgendaPerforms(s: State)
    ensures RunAgenda(s).sh == PerformAll(s.sh, s.agenda)
    decreases |s.agenda|
  {
    if s.agenda != [] {
      RunAgendaPerforms(NextMain(s));
    }
  }

  lemma {:induction false} PerformConcat(sh: Shared, a: seq<Action>, b: seq<Action>)
    ensures PerformAll(sh, a + b) == PerformAll(PerformAll(sh, a), b)
    decreases |a|
  {
    if a == [] {
      assert a + b == b;
    } else {
      assert (a + b)[1..] == a[1..] + b;
      PerformConcat(Perform(sh, a[0]), a[1..], b);
    }
  }

  lemma {:induction false} PerformSubmits(sh: Shared, todo: seq<Jid>)
    ensures PerformAll(sh, SubmitAgenda(todo)) == sh
    decreases |todo|
  {
    if todo != [] {
      assert SubmitAgenda(todo)[1..] == SubmitAgenda(todo[1..]);
      PerformSubmits(sh, todo[1..]);
    }
  }

  lemma PerformDrop(sh: Shared, j: Jid)
    ensures PerformAll(sh, DropActions(j)[1..]) ==
      var sh1 := DropMeta(sh, j);
      var sh2 := Unlink(DropFingerprint(sh1, Stream(j, Out)), Stream(j, Out));
      Unlink(DropFingerprint(sh2, Stream(j, Err)), Stream(j, Err))
  {
    var a := DropActions(j)[1..];
    assert a[1..][1..] == a[2..] && a[2..][1..] == a[3..] && a[3..][1..] == a[4..] && a[4..][1..] == [];
    var x1 := Perform(sh, a[0]);
    assert PerformAll(sh, a) == PerformAll(x1, a[1..]);
    var x2 := Perform(x1, a[1]);
    assert PerformAll(x1, a[1..]) == PerformAll(x2, a[2..]);
    var x3 := Perform(x2, a[2]);
    assert PerformAll(x2, a[2..]) == PerformAll(x3, a[3..]);
    var x4 := Perform(x3, a[3]);
    assert PerformAll(x3, a[3..]) == PerformAll(x4, a[4..]);
    assert PerformAll(x4, a[4..]) == Perform(x4, a[4]);
  }

  /** The result of copying a readable source unconditionally: what the mirror
      is for, without fingerprints. */
  function CopyStream(spool: map<Stream, Bytes>, st: Stream, path: Path, source: Option<Fingerprint>): map<Stream, Bytes> {
    if path == "" then spool
    else if source.None? then spool - {st}
    else spool[st := source.value.bytes]
  }

  /** One whole pass over a stream, as if every readable source were copied:
      nothing for an empty path or under a replaced token; a failed source takes
      the stream back; a readable one is written while the job is live. */
  function Mirrored(sh: Shared, st: Stream, path: Path, token: Token, source: Option<Fingerprint>): Shared {
    if path == "" then sh
    else if source.None? then Unpublish(sh, st, Some(token))
    else Publish(sh, st, token, source.value.bytes, source.value)
  }

  /** Both streams of a job, out before err, under its current token; a job
      without a validated seed is left alone. */
  function MirroredJob(sh: Shared, j: Jid, out: Option<Fingerprint>, err: Option<Fingerprint>): Shared
    requires j in sh.tokens
  {
    if j !in sh.owners || sh.owners[j] < 0 || j !in sh.paths then sh
    else
      var sh1 := Mirrored(sh, Stream(j, Out), sh.paths[j].out, sh.tokens[j], out);
      Mirrored(sh1, Stream(j, Err), sh.paths[j].err, sh.tokens[j], err)
  }

  lemma MirroredCopies(sh: Shared, st: Stream, path: Path, token: Token, source: Option<Fingerprint>)
    ensures var sh' := Mirrored(sh, st, path, token, source);
      && sh' == sh.(spool := sh'.spool, fingerprints := sh'.fingerprints, published := sh'.published)
      && (MayPublish(sh, st, token) ==> sh'.spool == CopyStream(sh.spool, st, path, source))
  {
  }

  lemma MirroredJobCopies(sh: Shared, j: Jid, out: Option<Fingerprint>, err: Option<Fingerprint>)
    requires j in sh.tokens
    ensures var sh' := MirroredJob(sh, j, out, err);
      sh' == sh.(spool := sh'.spool, fingerprints := sh'.fingerprints, published := sh'.published)
    ensures j in sh.owners && sh.owners[j] >= 0 && j in sh.paths && j in sh.live ==>
      MirroredJob(sh, j, out, err).spool ==
        CopyStream(CopyStream(sh.spool, Stream(j, Out), sh.paths[j].out, out), Stream(j, Err), sh.paths[j].err, err)
  {
    hide Mirrored, CopyStream;
    if j in sh.owners && sh.owners[j] >= 0 && j in sh.paths {
      MirroredCopies(sh, Stream(j, Out), sh.paths[j].out, sh.tokens[j], out);
      var sh1 := Mirrored(sh, Stream(j, Out), sh.paths[j].out, sh.tokens[j], out);
      MirroredCopies(sh1, Stream(j, Err), sh.paths[j].err, sh.tokens[j], err);
    }
  }

  /** A worker's steps through one stream, with no other thread in between. */
  function StreamPass(s: State, w: nat, source: Option<Fingerprint>): State
    requires w < |s.workers| && s.workers[w].Running? && s.workers[w].todo != []
  {
    if s.workers[w].Source() == "" then NextWorker(s, w, source)
    else
      var s3 := NextWorker(NextWorker(NextWorker(s, w, source), w, source), w, source);
      if s3.workers[w].Running? && s3.workers[w].phase.Seen? then NextWorker(s3, w, source) else s3
  }

  /** The fingerprint shortcut refines plain copying: whatever its token, a
      worker that is not interrupted does to the shared state what `Mirrored` says. */
  lemma StreamPassMirrors(s: State, w: nat, source: Option<Fingerprint>)
    requires FingerprintsSound(s) && w < |s.workers|
    requires var wk := s.workers[w]; wk.Running? && wk.todo != [] && wk.phase.AtStream?
    ensures var wk, s' := s.workers[w], StreamPass(s, w, source);
      && s'.sh == Mirrored(s.sh, wk.Current(), wk.Source(), wk.token, source)
      && s'.workers == s.workers[w := wk.Skip()]
  {
    var wk := s.workers[w];
    var st := wk.Current();
    if wk.Source() != "" {
      var s1 := NextWorker(s, w, source);
      assert s1.workers[w] == wk.(phase := Reading(KnownFingerprint(s.sh, st)));
      var s2 := NextWorker(s1, w, source);
      assert s2.workers[w] == wk.(phase := Got(source, ReadData(source, KnownFingerprint(s.sh, st))));
      assert s2.sh == s.sh;
      assert StreamPass(s, w, source).workers == s.workers[w := wk.Skip()];
      if source.Some? && source == KnownFingerprint(s.sh, st) {
        UnchangedIsCopied(s.sh, st, wk.token, source);
      }
    }
  }

  /** An unchanged source: publishing its bytes again writes what is there. */
  lemma UnchangedIsCopied(sh: Shared, st: Stream, token: Token, source: Option<Fingerprint>)
    requires source.Some? && source == KnownFingerprint(sh, st)
    requires sh.fingerprints[st].bytes == sh.spool[st]
    ensures Publish(sh, st, token, source.value.bytes, source.value) == Republish(sh, st, token)
  {
    assert sh.spool[st := source.value.bytes] == sh.spool;
    assert sh.fingerprints[st := source.value] == sh.fingerprints;
  }

  /** A worker that may publish leaves the stream's file as a copy of the source. */
  lemma StreamPassCopies(s: State, w: nat, source: Option<Fingerprint>)
    requires Inv(s) && w < |s.workers|
    requires var wk := s.workers[w];
      wk.Running? && wk.todo != [] && wk.phase.AtStream? && MayPublish(s.sh, wk.Current(), wk.token)
    ensures var wk, s' := s.workers[w], StreamPass(s, w, source);
      && s'.sh.spool == CopyStream(s.sh.spool, wk.Current(), wk.Source(), source)
      && (wk.Source() != "" ==> (wk.Current() in s'.sh.published <==> source.Some?))
  {
    hide StreamPass;
    StreamPassMirrors(s, w, source);
  }

  /** A worker's steps through its whole job, with no other thread in between. */
  function JobPass(s: State, w: nat, out: Option<Fingerprint>, err: Option<Fingerprint>): State
    requires w < |s.workers| && s.workers[w].Queued?
  {
    var s1 := NextWorker(s, w, None);
    if !s1.workers[w].Running? then NextWorker(s1, w, None)
    else
      var s3 := StreamPass(StreamPass(s1, w, out), w, err);
      NextWorker(NextWorker(s3, w, None), w, None)
  }

  lemma MirroredKeepsMatch(s: State, s': State, st: Stream, path: Path, token: Token, source: Option<Fingerprint>)
    requires FingerprintsSound(s) && s'.sh == Mirrored(s.sh, st, path, token, source)
    ensures FingerprintsSound(s')
  {
  }

  /** The protocol's worker does to the shared state what `MirroredJob` says: both
      streams, out before err, and the job is no longer in flight. */
  lemma JobPassMirrors(s: State, w: nat, out: Option<Fingerprint>, err: Option<Fingerprint>)
    requires FingerprintsSound(s) && w < |s.workers| && s.workers[w].Queued?
    ensures var j, s' := s.workers[w].jid, JobPass(s, w, out, err);
      && s'.sh == Finish(MirroredJob(TakeToken(s.sh, j), j, out, err), j)
      && s'.workers == s.workers[w := Done(j)]
  {
    hide StreamPass, Mirrored;
    var j, s1 := s.workers[w].jid, NextWorker(s, w, None);
    assert s1.sh == TakeToken(s.sh, j) && FingerprintsSound(s1);
    if s1.workers[w].Running? {
      var w1 := s1.workers[w];
      assert w1 == Running(j, s1.sh.tokens[j], Seed(s1.sh.paths[j], s1.sh.owners[j]), [Out, Err], AtStream);
      StreamPassMirrors(s1, w, out);
      var s2 := StreamPass(s1, w, out);
      MirroredCopies(s1.sh, w1.Current(), w1.Source(), w1.token, out);
      MirroredKeepsMatch(s1, s2, w1.Current(), w1.Source(), w1.token, out);
      assert s2.workers[w] == w1.(todo := [Err]);
      StreamPassMirrors(s2, w, err);
      assert StreamPass(s2, w, err).workers[w] == w1.(todo := []);
    }
  }

  /** What a pass leaves of one stream: its source's bytes and a published file,
      nothing when the source failed, and what was there when it names no path. */
  ghost predicate Follows(before: Shared, after: Shared, st: Stream, path: Path, source: Option<Fingerprint>) {
    if path == "" then
      && (st in after.spool <==> st in before.spool) && (st in after.spool ==> after.spool[st] == before.spool[st])
      && (st in after.published <==> st in before.published)
    else
      && (st in after.spool <==> source.Some?) && (st in after.published <==> source.Some?)
      && (source.Some? ==> after.spool[st] == source.value.bytes)
  }

  lemma MirroredFollows(sh: Shared, st: Stream, path: Path, token: Token, source: Option<Fingerprint>, other: Stream)
    requires MayPublish(sh, st, token)
    ensures var sh' := Mirrored(sh, st, path, token, source);
      Follows(sh, sh', st, path, source) && (other != st ==> Follows(sh, sh', other, "", None))
  {
  }

  lemma JobIsMirrored(sh: Shared, r: Row, out: Option<Fingerprint>, err: Option<Fingerprint>, other: Stream)
    requires r.Trusted() && SeededBy(sh, r.jid, Some(r), sh) && r.jid in sh.live && r.jid in sh.tokens
    requires other.jid != r.jid
    ensures var sh' := Finish(MirroredJob(sh, r.jid, out, err), r.jid);
      && Follows(sh, sh', Stream(r.jid, Out), r.paths.value.out, out)
      && Follows(sh, sh', Stream(r.jid, Err), r.paths.value.err, err)
      && Follows(sh, sh', other, "", None)
  {
    hide Mirrored, Follows;
    var t, o, e := sh.tokens[r.jid], Stream(r.jid, Out), Stream(r.jid, Err);
    var sh1 := Mirrored(sh, o, r.paths.value.out, t, out);
    MirroredCopies(sh, o, r.paths.value.out, t, out);
    var sh2 := Mirrored(sh1, e, r.paths.value.err, t, err);
    MirroredFollows(sh, o, r.paths.value.out, t, out, e);
    MirroredFollows(sh, o, r.paths.value.out, t, out, other);
    MirroredFollows(sh1, e, r.paths.value.err, t, err, o);
    MirroredFollows(sh1, e, r.paths.value.err, t, err, other);
    FollowsThrough(sh, sh1, sh2, r.paths.value, out, err, r.jid, other);
  }

  /** Taking a token touches no stream. */
  lemma FollowsFrom(sh: Shared, j: Jid, after: Shared, st: Stream, path: Path, source: Option<Fingerprint>)
    requires Follows(TakeToken(sh, j), after, st, path, source)
    ensures Follows(sh, after, st, path, source)
  {
  }

  /** From the queue to the spool: after a cycle from any state, the mirror of a
      listed job leaves each stream with the bytes of the source that the job's
      last usable row names for it, and every other job's streams alone. */
  lemma ListedJobIsMirrored(s: State, rows: seq<Row>, due: set<Jid>, gone: seq<Jid>, todo: seq<Jid>,
                            r: Row, out: Option<Fingerprint>, err: Option<Fingerprint>, other: Stream)
    requires s.agenda == [] && LastTrusted(rows, r.jid) == Some(r) && other.jid != r.jid
    requires Lists(gone, GoneJobs(s.sh, rows)) && Lists(todo, TodoJobs(s.sh, rows, due))
    ensures var sh := RunAgenda(NextShareLogs(s, rows, due, gone, todo)).sh;
      var sh' := Finish(MirroredJob(TakeToken(sh, r.jid), r.jid, out, err), r.jid);
      && r.Trusted()
      && Follows(sh, sh', Stream(r.jid, Out), r.paths.value.out, out)
      && Follows(sh, sh', Stream(r.jid, Err), r.paths.value.err, err)
      && Follows(sh, sh', other, "", None)
  {
    hide RunAgenda, NextShareLogs, LastTrusted, MirroredJob, Follows;
    CycleStoresRows(s, rows, due, gone, todo);
    NoLastTrusted(rows, r.jid);
    var sh := RunAgenda(NextShareLogs(s, rows, due, gone, todo)).sh;
    var taken := TakeToken(sh, r.jid);
    var sh' := Finish(MirroredJob(taken, r.jid, out, err), r.jid);
    assert SeededBy(taken, r.jid, Some(r), taken) && r.jid in Ids(rows);
    JobIsMirrored(taken, r, out, err, other);
    FollowsFrom(sh, r.jid, sh', Stream(r.jid, Out), r.paths.value.out, out);
    FollowsFrom(sh, r.jid, sh', Stream(r.jid, Err), r.paths.value.err, err);
    FollowsFrom(sh, r.jid, sh', other, "", None);
  }

  lemma FollowsThrough(sh: Shared, sh1: Shared, sh2: Shared, paths: Paths, out: Option<Fingerprint>,
                       err: Option<Fingerprint>, j: Jid, other: Stream)
    requires Follows(sh, sh1, Stream(j, Out), paths.out, out) && Follows(sh, sh1, Stream(j, Err), "", None)
    requires Follows(sh1, sh2, Stream(j, Err), paths.err, err) && Follows(sh1, sh2, Stream(j, Out), "", None)
    requires Follows(sh, sh1, other, "", None) && Follows(sh1, sh2, other, "", None)
    ensures Follows(sh, Finish(sh2, j), Stream(j, Out), paths.out, out)
    ensures Follows(sh, Finish(sh2, j), Stream(j, Err), paths.err, err)
    ensures Follows(sh, Finish(sh2, j), other, "", None)
  {
  }

  class Collector {
    var paths: map<Jid, Paths>
    var owners: map<Jid, int>
    var fingerprints: map<Stream, Fingerprint>
    var published: set<Stream>
    var tokens: map<Jid, Token>
    var live: set<Jid>
    var inflight: set<Jid>
    var spool: map<Stream, Bytes>
    var nextToken: Token

    ghost function View(): Shared
      reads this
    {
      Shared(paths, owners, fingerprints, published, tokens, live, inflight, spool, nextToken)
    }

    method FreshToken(j: Jid) returns (t: Token)
      modifies this
      ensures View() == NewToken(old(View()), j) && t == old(nextToken)
    {
      t := nextToken;
      tokens := tokens[j := t];
      nextToken := nextToken + 1;
    }

    /** The two seed loops of `_share_logs`: first the void rows, then the usable ones. */
    method SeedRows(rows: seq<Row>) returns (resets: seq<Reset>)
      modifies this
      ensures (View(), resets) == Reseed(old(View()), rows)
    {
      resets := [];
      ghost var sh0 := View();
      for i := 0 to |rows|
        invariant InvalidateAll(View(), resets, rows[i..]) == InvalidateAll(sh0, [], rows)
      {
        var r := rows[i];
        assert rows[i..][0] == r && rows[i..][1..] == rows[i + 1..];
        if !r.Trusted() {
          var t := FreshToken(r.jid);
          resets := resets + ResetsFor(r.jid, t);
          paths := paths - {r.jid};
          owners := owners - {r.jid};
        }
      }
      ghost var sh1, r1 := View(), resets;
      assert (sh1, r1) == InvalidateAll(sh0, [], rows);
      for i := 0 to |rows|
        invariant SeedAll(View(), resets, rows[i..]) == SeedAll(sh1, r1, rows)
      {
        var r := rows[i];
        assert rows[i..][0] == r && rows[i..][1..] == rows[i + 1..];
        if r.Trusted() {
          var changed := r.jid in paths
            && (paths[r.jid] != r.paths.value || r.jid !in owners || owners[r.jid] != r.uid);
          if changed {
            var t := FreshToken(r.jid);
            resets := resets + ResetsFor(r.jid, t);
          } else if r.jid !in tokens {
            var _ := FreshToken(r.jid);
          }
          paths := paths[r.jid := r.paths.value];
          owners := owners[r.jid := r.uid];
        }
      }
    }

    /** The lock-held part of `_share_logs`. */
    method Reseeding(rows: seq<Row>, due: set<Jid>) returns (resets: seq<Reset>, gone: seq<Jid>, todo: seq<Jid>)
      modifies this
      ensures View() == SeedSection(old(View()), rows, set j | j in todo)
      ensures resets == Reseed(old(View()), rows).1
      ensures Lists(gone, GoneJobs(old(View()), rows)) && Lists(todo, TodoJobs(old(View()), rows, due))
    {
      hide InvalidateAll, SeedAll;
      ghost var sh0 := View();
      resets := SeedRows(rows);
      ReseedInflight(sh0, rows);
      var known := paths.Keys + owners.Keys + live + (set st | st in published :: st.jid);
      gone := ListSet(known - Ids(rows));
      live := Ids(rows);
      todo := ListSet((TrustedIds(rows) - inflight) * due);
      inflight := inflight + set j | j in todo;
    }

    method UnpublishLogStream(st: Stream, token: Option<Token>)
      modifies `published, `fingerprints, `spool
      ensures View() == Unpublish(old(View()), st, token)
    {
      if token.Some? && (st.jid !in tokens || tokens[st.jid] != token.value) {
        return;
      }
      published := published - {st};
      fingerprints := fingerprints - {st};
      spool := spool - {st};
    }

    method ApplyResets(resets: seq<Reset>)
      modifies this
      ensures View() == PerformAll(old(View()), ResetAgenda(resets))
    {
      ghost var goal := PerformAll(View(), ResetAgenda(resets));
      assert resets[0..] == resets;
      for i := 0 to |resets|
        invariant PerformAll(View(), ResetAgenda(resets[i..])) == goal
      {
        assert ResetAgenda(resets[i..])[1..] == ResetAgenda(resets[i + 1..]);
        UnpublishLogStream(resets[i].stream, Some(resets[i].token));
      }
    }

    /** Everything of the job but its paths, which the caller popped before. */
    method DropLogSpool(j: Jid)
      modifies this
      ensures View() == PerformAll(old(View()), DropActions(j)[1..])
    {
      published := published - {Stream(j, Out), Stream(j, Err)};
      owners := owners - {j};
      tokens := tokens - {j};
      live := live - {j};
      fingerprints := fingerprints - {Stream(j, Out)};
      spool := spool - {Stream(j, Out)};
      fingerprints := fingerprints - {Stream(j, Err)};
      spool := spool - {Stream(j, Err)};
      PerformDrop(old(View()), j);
    }

    method DropGone(gone: seq<Jid>)
      modifies this
      ensures View() == PerformAll(old(View()), DropAgenda(gone))
    {
      ghost var goal := PerformAll(View(), DropAgenda(gone));
      assert gone[0..] == gone;
      for i := 0 to |gone|
        invariant PerformAll(View(), DropAgenda(gone[i..])) == goal
      {
        ghost var before := View();
        assert gone[i..][0] == gone[i] && gone[i..][1..] == gone[i + 1..];
        PerformConcat(before, DropActions(gone[i]), DropAgenda(gone[i + 1..]));
        paths := paths - {gone[i]};
        assert View() == Perform(before, DropActions(gone[i])[0]);
        DropLogSpool(gone[i]);
      }
    }

    /** One undisturbed call of `_share_logs`: the jobs submitted to the worker
        pool and the streams reported as published. */
    method ShareLogs(rows: seq<Row>, due: set<Jid>)
      returns (todo: seq<Jid>, listed: set<Stream>, ghost gone: seq<Jid>)
      modifies this
      ensures Lists(gone, GoneJobs(old(View()), rows)) && Lists(todo, TodoJobs(old(View()), rows, due))
      ensures View() == RunAgenda(NextShareLogs(State(old(View()), [], [], {}), rows, due, gone, todo)).sh
      ensures listed == set st | st in published && st.jid in Ids(rows)
      ensures StoresRows(View(), rows) && live == Ids(rows)
      ensures forall j :: j in todo <==>
        j in due && j !in old(inflight) && exists r :: r in rows && r.jid == j && r.paths.Some? && r.uid >= 0
    {
      ghost var sh0 := View();
      var resets, drops;
      resets, drops, todo := Reseeding(rows, due);
      gone := drops;
      ghost var sh1 := View();
      RunAgendaPerforms(NextShareLogs(State(sh0, [], [], {}), rows, due, gone, todo));
      PerformConcat(sh1, ResetAgenda(resets) + DropAgenda(gone), SubmitAgenda(todo));
      PerformConcat(sh1, ResetAgenda(resets), DropAgenda(gone));
      ApplyResets(resets);
      DropGone(drops);
      PerformSubmits(View(), todo);
      CycleStoresRows(State(sh0, [], [], {}), rows, due, gone, todo);
      listed := set st | st in published && st.jid in Ids(rows);
    }

    /** A recorded fingerprint stands for the bytes of the file beside it. */
    ghost predicate FilesMatch()
      reads this
    {
      forall st :: st in spool && st in fingerprints ==> fingerprints[st].bytes == spool[st]
    }

    /** One turn of the stream loop of `_mirror_one_job_log`, with nothing
        interleaved, under any token: an unchanged source is not copied again,
        and still the state becomes what copying it would have made it. */
    method MirrorStream(st: Stream, src: Path, token: Token, source: Option<Fingerprint>)
      requires FilesMatch()
      modifies `spool, `fingerprints, `published
      ensures FilesMatch()
      ensures View() == Mirrored(old(View()), st, src, token, source)
    {
      if src == "" {
        return;
      }
      var known := if st in spool && st in fingerprints then Some(fingerprints[st]) else None;
      var data := ReadData(source, known);
      if source.None? {
        UnpublishLogStream(st, Some(token));
      } else if data.None? {
        UnchangedIsCopied(View(), st, token, source);
        if st in spool && st.jid in live && st.jid in tokens && tokens[st.jid] == token {
          published := published + {st};
        }
      } else if st.jid in live && st.jid in tokens && tokens[st.jid] == token {
        spool := spool[st := data.value];
        fingerprints := fingerprints[st := source.value];
        published := published + {st};
      }
    }

    /** One call of `_mirror_one_job_log` that nothing interleaves with: the
        whole new state, and for a live job with metadata the two copies. */
    method MirrorOneJobLog(j: Jid, out: Option<Fingerprint>, err: Option<Fingerprint>)
      requires FilesMatch()
      modifies this
      ensures FilesMatch()
      ensures View() == Finish(MirroredJob(TakeToken(old(View()), j), j, out, err), j)
      ensures j in old(owners) && old(owners)[j] >= 0 && j in old(paths) && j in old(live) ==>
        spool == CopyStream(CopyStream(old(spool), Stream(j, Out), old(paths)[j].out, out),
                            Stream(j, Err), old(paths)[j].err, err)
    {
      hide Mirrored;
      ghost var sh1 := TakeToken(View(), j);
      if j !in tokens {
        var _ := FreshToken(j);
      }
      assert View() == sh1;
      MirroredJobCopies(sh1, j, out, err);
      var token := tokens[j];
      if j in owners && owners[j] >= 0 && j in paths {
        MirrorStream(Stream(j, Out), paths[j].out, token, out);
        MirrorStream(Stream(j, Err), paths[j].err, token, err);
      }
      inflight := inflight - {j};
    }
  }
}
