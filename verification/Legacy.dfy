/**
Parsing `scontrol -o show job -d` of old SLURM releases.  The text is ambiguous,
because submitter-controlled strings are printed verbatim, so an identity is
kept only if exactly one line claims it and that line agrees with what the
queue said about the job right before and right after.
*/
module Legacy {
  import opened Common
  import Nodelist

  type Jid = string
  type Node = string

  /** The queue's own word on a job. */
  datatype Anchor = Anchor(user: string, uid: nat, state: string, nodes: seq<Node>)

  type Roster = map<Jid, Anchor>

  datatype Slot = Slot(node: Node, index: nat)

  /** One `Nodes=... GRES=...` segment: the node expression, the contents of the
      recognised `(IDX:...)` groups, and how often `IDX:` occurs at all. */
  datatype Segment = Segment(nodes: string, idxGroups: seq<string>, idxMarkers: nat)

  /** Standard output and error of a job; the error path is empty when both are one file. */
  datatype LogSpec = LogSpec(out: string, err: string, merged: bool)

  /** A physical line: the well-formed ids it claims, and its fields.  A field is
      None when it is missing, repeated or malformed; a path also when unsafe. */
  datatype Line = Line(
    claimed: seq<Jid>,
    tooLong: bool,
    controlChars: bool,
    repeatedField: bool,
    rawJobId: Option<Jid>,
    owner: Option<(string, nat)>,
    state: Option<string>,
    nodeList: Option<string>,
    workdir: Option<string>,
    stdout: Option<string>,
    stderr: Option<string>,
    detail: string,
    segments: seq<Segment>)
  {
    function Ids(): (ids: seq<Jid>)
      ensures forall i, j :: 0 <= i < j < |ids| ==> ids[i] != ids[j]
    {
      Dedup(claimed)
    }

    /** Unsafe paths count as absent here; a line with one is never accepted. */
    function Logs(): LogSpec {
      var (o, e) := (if stdout.Some? then stdout.value else "", if stderr.Some? then stderr.value else "");
      var merged := o != "" && e != "" && o == e;
      LogSpec(o, if merged then "" else e, merged)
    }
  }

  datatype Parsed = Parsed(
    alloc: map<Slot, Jid>,
    users: map<Jid, string>,
    uids: map<Jid, nat>,
    details: map<Jid, string>,
    logs: map<Jid, LogSpec>,
    rejected: set<Jid>)

  datatype Input = Input(lines: seq<Line>, before: Roster, after: Roster)

  // ---------------------------------------------------------------------------
  // What one line is worth
  // ---------------------------------------------------------------------------

  predicate Stable(inp: Input, j: Jid) {
    j in inp.before && j in inp.after && inp.before[j] == inp.after[j]
  }

  predicate Relevant(inp: Input, l: Line) {
    exists j :: j in l.Ids() && (j in inp.before || j in inp.after)
  }

  /** The anchors of those of `ids` that did not change between the rosters. */
  function StableAnchors(inp: Input, ids: seq<Jid>): seq<Anchor> {
    if ids == [] then []
    else (if Stable(inp, ids[0]) then [inp.before[ids[0]]] else []) + StableAnchors(inp, ids[1..])
  }

  /** The one anchor the line's stable ids share. */
  function AnchorOf(inp: Input, l: Line): Option<Anchor> {
    var anchors := StableAnchors(inp, l.Ids());
    if anchors == [] || exists i :: 0 <= i < |anchors| && anchors[i] != anchors[0] then None
    else Some(anchors[0])
  }

  /** The line's own fields agree with the anchor, and none of them is dubious. */
  predicate Agrees(l: Line, a: Anchor) {
    && l.claimed != []
    && !l.tooLong && !l.controlChars && !l.repeatedField
    && l.rawJobId.Some? && l.rawJobId.value == l.Ids()[0]
    && l.owner == Some((a.user, a.uid))
    && l.state == Some(a.state)
    && l.nodeList.Some? && Nodelist.StrictExpand(l.nodeList.value) == Some(a.nodes)
    && l.workdir.Some? && l.stdout.Some? && l.stderr.Some?
  }

  function Claiming(j: Jid): Line -> nat {
    (l: Line) => if j in l.Ids() then 1 else 0
  }

  /** How many lines claim the id. */
  function ClaimCount(lines: seq<Line>, j: Jid): nat {
    Total(lines, Claiming(j))
  }

  predicate Unique(inp: Input, l: Line) {
    forall j :: j in l.Ids() ==> ClaimCount(inp.lines, j) == 1
  }

  datatype Verdict = Ignored | Rejected | Accepted(anchor: Anchor)

  function Judge(inp: Input, l: Line): Verdict {
    if !Relevant(inp, l) then Ignored
    else if !Unique(inp, l) then Rejected
    else
      var a := AnchorOf(inp, l);
      if a.Some? && Agrees(l, a.value) then Accepted(a.value) else Rejected
  }

  // ---------------------------------------------------------------------------
  // GPU claims of one line
  // ---------------------------------------------------------------------------

  const MAX_GPU_INDICES := 1024
  const MAX_GPU_INDEX := 65535

  function Numbers(values: seq<string>): (r: Option<seq<nat>>)
    ensures r.Some? ==> |r.value| == |values|
  {
    if values == [] then Some([])
    else if !Nodelist.AllDigits(values[0]) then None
    else
      var rest := Numbers(values[1..]);
      if rest.None? || Nodelist.Int(values[0]) > MAX_GPU_INDEX then None
      else Some([Nodelist.Int(values[0])] + rest.value)
  }

  function UpperNA(s: string): bool {
    s == "N/A" || s == "n/a" || s == "N/a" || s == "n/A"
  }

  function IndexGroups(groups: seq<string>, room: int): Option<seq<nat>> {
    if groups == [] then Some([])
    else if UpperNA(groups[0]) then IndexGroups(groups[1..], room)
    else
      var values := Nodelist.StrictRange(groups[0], room);
      if values.None? then None
      else
        var numbers := Numbers(values.value);
        if numbers.None? then None
        else
          var rest := IndexGroups(groups[1..], room - |numbers.value|);
          if rest.None? then None else Some(numbers.value + rest.value)
  }

  function GpuIndices(seg: Segment): Option<seq<nat>> {
    if seg.idxMarkers != |seg.idxGroups| then None else IndexGroups(seg.idxGroups, MAX_GPU_INDICES)
  }

  function SlotsOn(node: Node, indices: seq<nat>): seq<Slot> {
    seq(|indices|, i requires 0 <= i < |indices| => Slot(node, indices[i]))
  }

  function CrossSlots(nodes: seq<Node>, indices: seq<nat>): (r: seq<Slot>)
    ensures forall s :: s in r ==> s.node in nodes
  {
    if nodes == [] then [] else SlotsOn(nodes[0], indices) + CrossSlots(nodes[1..], indices)
  }

  function AsSet(nodes: seq<Node>): set<Node> {
    set n | n in nodes
  }

  /** The slots of the segments, which may neither repeat a node nor leave the placement. */
  function SegmentClaims(segments: seq<Segment>, expected: set<Node>, seen: set<Node>): (r: Option<(seq<Slot>, set<Node>)>)
    ensures r.Some? ==> forall s :: s in r.value.0 ==> s.node in expected
  {
    if segments == [] then Some(([], seen))
    else
      var nodes, indices := Nodelist.StrictExpand(segments[0].nodes), GpuIndices(segments[0]);
      if nodes.None? || indices.None? || !(AsSet(nodes.value) <= expected) || AsSet(nodes.value) * seen != {} then None
      else
        var rest := SegmentClaims(segments[1..], expected, seen + AsSet(nodes.value));
        if rest.None? then None
        else Some((CrossSlots(nodes.value, indices.value) + rest.value.0, rest.value.1))
  }

  /** The line's GPU claims: none at all, or segments that cover the placement exactly. */
  function GpuClaims(l: Line, nodes: seq<Node>): (r: Option<seq<Slot>>)
    ensures r.Some? ==> forall s :: s in r.value ==> s.node in nodes
  {
    if l.segments == [] then Some([])
    else
      var claims := SegmentClaims(l.segments, AsSet(nodes), {});
      if claims.None? || claims.value.1 != AsSet(nodes) then None else Some(claims.value.0)
  }

  predicate Active(a: Anchor) {
    a.state == "RUNNING" || a.state == "COMPLETING"
  }

  /** The slots an accepted line lays claim to; None when its segments are dubious. */
  function ClaimsOf(inp: Input, l: Line): Option<seq<Slot>> {
    var v := Judge(inp, l);
    if v.Accepted? && Active(v.anchor) then GpuClaims(l, v.anchor.nodes) else Some([])
  }

  function SlotClaims(inp: Input, s: Slot): Line -> nat {
    (l: Line) => if ClaimsOf(inp, l).Some? then multiset(ClaimsOf(inp, l).value)[s] else 0
  }

  /** How many accepted claims there are to a slot. */
  function SlotCount(inp: Input, s: Slot): nat {
    Total(inp.lines, SlotClaims(inp, s))
  }

  ghost predicate ClaimsSlot(inp: Input, l: Line, s: Slot) {
    ClaimsOf(inp, l).Some? && s in ClaimsOf(inp, l).value
  }

  // ---------------------------------------------------------------------------
  // What the parse must return
  // ---------------------------------------------------------------------------

  ghost predicate Keeps(inp: Input, l: Line, j: Jid) {
    Judge(inp, l).Accepted? && j in l.Ids()
  }

  /** What the identity maps must say about `j` for the line's sake. */
  ghost predicate Recorded(inp: Input, l: Line, j: Jid, p: Parsed) {
    var a := Judge(inp, l);
    a.Accepted? && j in p.users && j in p.uids && j in p.details && j in p.logs
    && p.users[j] == a.anchor.user && p.uids[j] == a.anchor.uid && p.details[j] == l.detail && p.logs[j] == l.Logs()
  }

  ghost predicate KeptIn(inp: Input, lines: seq<Line>, j: Jid) {
    exists l :: l in lines && Keeps(inp, l, j)
  }

  /** The identity maps hold exactly what the accepted lines among `lines` say. */
  ghost predicate Identities(inp: Input, lines: seq<Line>, p: Parsed) {
    && (forall j :: j in p.users ==> KeptIn(inp, lines, j))
    && p.uids.Keys == p.users.Keys && p.details.Keys == p.users.Keys && p.logs.Keys == p.users.Keys
    && (forall l, j :: l in lines && Keeps(inp, l, j) ==> Recorded(inp, l, j, p))
  }

  /** A line's ids are rejected for the line's own sake or for a contested slot. */
  ghost predicate Refused(inp: Input, l: Line) {
    Judge(inp, l).Rejected? || ClaimsOf(inp, l).None?
  }

  ghost predicate Contested(inp: Input, l: Line) {
    exists s :: ClaimsSlot(inp, l, s) && SlotCount(inp, s) != 1
  }

  /** A slot goes to the one job that claims it. */
  ghost predicate Allocated(inp: Input, alloc: map<Slot, Jid>) {
    && (forall s :: s in alloc <==> SlotCount(inp, s) == 1)
    && (forall l, s :: l in inp.lines && ClaimsSlot(inp, l, s) && s in alloc ==> l.claimed != [] && alloc[s] == l.Ids()[0])
  }

  ghost predicate RejectedFor(inp: Input, rejected: set<Jid>) {
    forall j :: j in rejected <==>
      exists l :: l in inp.lines && j in l.Ids() && (Refused(inp, l) || Contested(inp, l))
  }

  ghost predicate IsParse(inp: Input, p: Parsed) {
    Identities(inp, inp.lines, p) && Allocated(inp, p.alloc) && RejectedFor(inp, p.rejected)
  }

  // ---------------------------------------------------------------------------
  // Consequences
  // ---------------------------------------------------------------------------

  lemma SlotClaimant(inp: Input, s: Slot)
    requires SlotCount(inp, s) > 0
    ensures exists l :: l in inp.lines && ClaimsSlot(inp, l, s)
  {
    TotalPositive(inp.lines, SlotClaims(inp, s));
    var l :| l in inp.lines && SlotClaims(inp, s)(l) > 0;
    assert ClaimsSlot(inp, l, s);
  }

  lemma AllocIsUnique(inp: Input, p: Parsed, q: Parsed)
    requires IsParse(inp, p) && IsParse(inp, q)
    ensures p.alloc == q.alloc && p.rejected == q.rejected
  {
    hide Identities, ClaimsSlot, SlotCount, Refused, Contested;
    forall s | s in p.alloc ensures p.alloc[s] == q.alloc[s] {
      SlotClaimant(inp, s);
    }
  }

  lemma IdentitiesAreUnique(inp: Input, lines: seq<Line>, p: Parsed, q: Parsed)
    requires Identities(inp, lines, p) && Identities(inp, lines, q)
    ensures p.users == q.users && p.uids == q.uids && p.details == q.details && p.logs == q.logs
  {
    hide Identities, SameEntry;
    SameKeys(inp, lines, p, q);
    SameKeys(inp, lines, q, p);
    forall j | j in p.users ensures SameEntry(p, q, j) {
      SameEntries(inp, lines, p, q, j);
    }
    SameMaps(p, q);
  }

  lemma SameMaps(p: Parsed, q: Parsed)
    requires p.uids.Keys == p.details.Keys == p.logs.Keys == p.users.Keys
    requires q.uids.Keys == q.details.Keys == q.logs.Keys == q.users.Keys == p.users.Keys
    requires forall j :: j in p.users ==> SameEntry(p, q, j)
    ensures p.users == q.users && p.uids == q.uids && p.details == q.details && p.logs == q.logs
  {
    forall j | j in p.users.Keys
      ensures p.users[j] == q.users[j] && p.uids[j] == q.uids[j] && p.details[j] == q.details[j] && p.logs[j] == q.logs[j]
    {
      assert SameEntry(p, q, j);
    }
  }

  ghost predicate SameEntry(p: Parsed, q: Parsed, j: Jid) {
    && j in p.users && j in p.uids && j in p.details && j in p.logs
    && j in q.users && j in q.uids && j in q.details && j in q.logs
    && p.users[j] == q.users[j] && p.uids[j] == q.uids[j] && p.details[j] == q.details[j] && p.logs[j] == q.logs[j]
  }

  lemma SameEntries(inp: Input, lines: seq<Line>, p: Parsed, q: Parsed, j: Jid)
    requires Identities(inp, lines, p) && Identities(inp, lines, q) && j in p.users
    ensures SameEntry(p, q, j)
  {
    hide Keeps, Judge;
    assert KeptIn(inp, lines, j);
    var l :| l in lines && Keeps(inp, l, j);
    assert Recorded(inp, l, j, p) && Recorded(inp, l, j, q);
  }

  lemma SameKeys(inp: Input, lines: seq<Line>, p: Parsed, q: Parsed)
    requires Identities(inp, lines, p) && Identities(inp, lines, q)
    ensures p.uids.Keys == p.details.Keys == p.logs.Keys == p.users.Keys <= q.users.Keys
  {
    hide Keeps, Judge;
    forall j | j in p.users ensures j in q.users {
      SameEntries(inp, lines, p, q, j);
    }
  }

  /** The parse is determined by the input. */
  lemma ParseIsUnique(inp: Input, p: Parsed, q: Parsed)
    requires IsParse(inp, p) && IsParse(inp, q)
    ensures p == q
  {
    hide Identities, ClaimsSlot, SlotCount, Refused, Contested;
    AllocIsUnique(inp, p, q);
    IdentitiesAreUnique(inp, inp.lines, p, q);
  }

  /** Two lines that claim one id. */
  lemma TwoClaims(lines: seq<Line>, a: Line, b: Line, j: Jid)
    requires a in lines && b in lines && a != b && j in a.Ids() && j in b.Ids()
    ensures ClaimCount(lines, j) >= 2
  {
    TwoCount(lines, a, b, Claiming(j));
  }

  lemma TwoCount(lines: seq<Line>, a: Line, b: Line, f: Line -> nat)
    requires a in lines && b in lines && a != b
    ensures Total(lines, f) >= f(a) + f(b)
  {
    var i :| 0 <= i < |lines| && lines[i] == a;
    var k :| 0 <= k < |lines| && lines[k] == b;
    if i < k {
      TotalOfTwo(lines, i, k, f);
    } else {
      TotalOfTwo(lines, k, i, f);
    }
  }

  /** The line agrees with the one anchor that its ids have unchanged in both rosters. */
  ghost predicate Anchored(inp: Input, l: Line, a: Anchor) {
    && Agrees(l, a)
    && (exists k :: k in l.Ids() && Stable(inp, k) && inp.before[k] == a)
    && (forall k :: k in l.Ids() && Stable(inp, k) ==> inp.before[k] == a)
  }

  lemma {:induction false} StableAnchorsAre(inp: Input, ids: seq<Jid>)
    ensures var anchors := StableAnchors(inp, ids);
      && (anchors != [] ==> exists j :: j in ids && Stable(inp, j) && anchors[0] == inp.before[j])
      && (forall j :: j in ids && Stable(inp, j) ==> inp.before[j] in anchors)
  {
    if ids != [] {
      StableAnchorsAre(inp, ids[1..]);
      assert ids[0] in ids;
    }
  }

  lemma AcceptedIsAnchored(inp: Input, l: Line)
    requires Judge(inp, l).Accepted?
    ensures Unique(inp, l) && Anchored(inp, l, Judge(inp, l).anchor)
  {
    hide Agrees;
    StableAnchorsAre(inp, l.Ids());
  }

  lemma ClaimsArePlaced(inp: Input, l: Line, s: Slot)
    requires ClaimsSlot(inp, l, s)
    ensures Judge(inp, l).Accepted? && s.node in Judge(inp, l).anchor.nodes
  {
    hide Judge, GpuClaims;
  }

  /** No other line claims any of the line's ids. */
  ghost predicate SoleClaimant(inp: Input, l: Line) {
    l in inp.lines && forall m, j :: m in inp.lines && j in m.Ids() && j in l.Ids() ==> m == l
  }

  lemma UniqueIsSole(inp: Input, l: Line)
    requires l in inp.lines && Unique(inp, l)
    ensures SoleClaimant(inp, l)
  {
    forall m, j | m in inp.lines && j in m.Ids() && j in l.Ids() ensures m == l {
      if m != l {
        TwoClaims(inp.lines, l, m, j);
      }
    }
  }

  /** An identity is kept only if exactly one line claims it, and that line
      agrees with an anchor that is the same in both rosters. */
  lemma KeptIdentities(inp: Input, p: Parsed, j: Jid)
    requires IsParse(inp, p) && j in p.users
    ensures ClaimCount(inp.lines, j) == 1
    ensures exists l, a :: SoleClaimant(inp, l) && j in l.Ids() && Anchored(inp, l, a)
                           && p.users[j] == a.user && p.uids[j] == a.uid && p.details[j] == l.detail && p.logs[j] == l.Logs()
  {
    var l :| l in inp.lines && Keeps(inp, l, j);
    AcceptedIsAnchored(inp, l);
    UniqueIsSole(inp, l);
    hide Judge, Agrees, AnchorOf, ClaimsOf, SlotCount;
    var a := Judge(inp, l).anchor;
    assert Anchored(inp, l, a) && SoleClaimant(inp, l);
  }

  /** Every allocated slot has exactly one claim; its node lies in the claiming
      job's placement, and the job it goes to has an owner, that anchor's user. */
  lemma AllocatedSlots(inp: Input, p: Parsed, s: Slot)
    requires IsParse(inp, p) && s in p.alloc
    ensures SlotCount(inp, s) == 1
    ensures exists l, a :: l in inp.lines && ClaimsSlot(inp, l, s) && Anchored(inp, l, a)
                           && s.node in a.nodes && p.alloc[s] == l.Ids()[0]
                           && p.alloc[s] in p.users && p.users[p.alloc[s]] == a.user
    ensures forall l, m :: l in inp.lines && m in inp.lines && ClaimsSlot(inp, l, s) && ClaimsSlot(inp, m, s) ==> l == m
  {
    SlotClaimant(inp, s);
    forall l, m | l in inp.lines && m in inp.lines && ClaimsSlot(inp, l, s) && ClaimsSlot(inp, m, s) ensures l == m {
      if l != m {
        TwoCount(inp.lines, l, m, SlotClaims(inp, s));
      }
    }
    var l :| l in inp.lines && ClaimsSlot(inp, l, s);
    ClaimsArePlaced(inp, l, s);
    AcceptedIsAnchored(inp, l);
    hide Judge, AnchorOf, ClaimsOf, SlotCount;
    var a := Judge(inp, l).anchor;
    assert Keeps(inp, l, l.Ids()[0]);
    assert Anchored(inp, l, a);
  }

  // ---------------------------------------------------------------------------
  // Reordering and appending lines
  // ---------------------------------------------------------------------------

  lemma JudgePermutes(inp: Input, lines: seq<Line>, l: Line)
    requires multiset(inp.lines) == multiset(lines)
    ensures Judge(inp, l) == Judge(inp.(lines := lines), l)
    ensures ClaimsOf(inp, l) == ClaimsOf(inp.(lines := lines), l)
  {
    hide Agrees, GpuClaims;
    var other := inp.(lines := lines);
    forall j | j in l.Ids() ensures ClaimCount(inp.lines, j) == ClaimCount(lines, j) {
      TotalPermutes(inp.lines, lines, Claiming(j));
    }
    assert Unique(inp, l) == Unique(other, l);
    StableAnchorsSame(inp, other, l.Ids());
  }

  lemma {:induction false} StableAnchorsSame(a: Input, b: Input, ids: seq<Jid>)
    requires a.before == b.before && a.after == b.after
    ensures StableAnchors(a, ids) == StableAnchors(b, ids)
  {
    if ids != [] {
      StableAnchorsSame(a, b, ids[1..]);
    }
  }

  lemma SlotCountPermutes(inp: Input, lines: seq<Line>, s: Slot)
    requires multiset(inp.lines) == multiset(lines)
    ensures SlotCount(inp, s) == SlotCount(inp.(lines := lines), s)
  {
    hide Judge, ClaimsOf, Agrees, AnchorOf;
    var other := inp.(lines := lines);
    forall l | l in inp.lines ensures SlotClaims(inp, s)(l) == SlotClaims(other, s)(l) {
      JudgePermutes(inp, lines, l);
    }
    TotalSame(inp.lines, SlotClaims(inp, s), SlotClaims(other, s));
    TotalPermutes(inp.lines, lines, SlotClaims(other, s));
  }

  /** Reordering the lines changes nothing. */
  lemma ReorderingIsHarmless(inp: Input, lines: seq<Line>, p: Parsed)
    requires multiset(inp.lines) == multiset(lines) && IsParse(inp, p)
    ensures IsParse(inp.(lines := lines), p)
  {
    hide Judge, ClaimsOf, SlotCount, Identities, Allocated, RejectedFor;
    var other := inp.(lines := lines);
    forall l ensures l in inp.lines <==> l in lines {
      assert l in inp.lines <==> l in multiset(inp.lines);
      assert l in lines <==> l in multiset(lines);
    }
    forall l ensures Judge(inp, l) == Judge(other, l) && ClaimsOf(inp, l) == ClaimsOf(other, l) {
      JudgePermutes(inp, lines, l);
    }
    forall s ensures SlotCount(inp, s) == SlotCount(other, s) {
      SlotCountPermutes(inp, lines, s);
    }
    IdentitiesCarryOver(inp, other, p);
    AllocCarriesOver(inp, other, p.alloc);
    RejectedCarryOver(inp, other, p.rejected);
  }

  /** Same lines, same verdicts, same counts. */
  ghost predicate Alike(a: Input, b: Input) {
    && (forall l :: l in a.lines <==> l in b.lines)
    && (forall l :: Judge(a, l) == Judge(b, l))
    && (forall l :: ClaimsOf(a, l) == ClaimsOf(b, l))
    && (forall s :: SlotCount(a, s) == SlotCount(b, s))
  }

  lemma IdentitiesCarryOver(a: Input, b: Input, p: Parsed)
    requires Alike(a, b) && Identities(a, a.lines, p)
    ensures Identities(b, b.lines, p)
  {
    hide Judge, ClaimsOf, SlotCount;
    forall j | j in p.users ensures KeptIn(b, b.lines, j) {
      KeptCarriesOver(a, b, j);
    }
    forall l, j | l in b.lines && Keeps(b, l, j)
      ensures Recorded(b, l, j, p)
    {
      assert Judge(a, l) == Judge(b, l) && l in a.lines && Keeps(a, l, j);
      assert Recorded(a, l, j, p);
    }
  }

  lemma KeptCarriesOver(a: Input, b: Input, j: Jid)
    requires Alike(a, b) && KeptIn(a, a.lines, j)
    ensures KeptIn(b, b.lines, j)
  {
    hide Judge, ClaimsOf, SlotCount;
    var l :| l in a.lines && Keeps(a, l, j);
    assert l in b.lines && Judge(a, l) == Judge(b, l) && Keeps(b, l, j);
  }

  lemma AllocCarriesOver(a: Input, b: Input, alloc: map<Slot, Jid>)
    requires Alike(a, b) && Allocated(a, alloc)
    ensures Allocated(b, alloc)
  {
    hide Judge, ClaimsOf, SlotCount;
    assert forall l, s :: ClaimsSlot(a, l, s) == ClaimsSlot(b, l, s);
  }

  lemma RejectedCarryOver(a: Input, b: Input, rejected: set<Jid>)
    requires Alike(a, b) && RejectedFor(a, rejected)
    ensures RejectedFor(b, rejected)
  {
    hide Judge, ClaimsOf, SlotCount, Contested;
    forall l ensures Contested(a, l) == Contested(b, l) {
      ContestedCarriesOver(a, b, l);
    }
    assert forall l :: Refused(a, l) == Refused(b, l);
  }

  lemma ContestedCarriesOver(a: Input, b: Input, l: Line)
    requires Alike(a, b)
    ensures Contested(a, l) == Contested(b, l)
  {
    hide Judge, ClaimsOf, SlotCount;
    assert forall s :: ClaimsSlot(a, l, s) == ClaimsSlot(b, l, s);
  }

  /** Appending lines never adds or changes an owner, uid, detail or log entry
      of an id the original lines claim: it can only drop it. */
  lemma AppendingOnlyDrops(inp: Input, extra: seq<Line>, p: Parsed, q: Parsed, j: Jid)
    requires IsParse(inp, p) && IsParse(inp.(lines := inp.lines + extra), q)
    requires ClaimCount(inp.lines, j) > 0 && j in q.users
    ensures j in p.users && p.users[j] == q.users[j] && p.uids[j] == q.uids[j]
      && p.details[j] == q.details[j] && p.logs[j] == q.logs[j]
  {
    hide Agrees, ClaimsOf, SlotCount, Judge, AnchorOf;
    var big := inp.(lines := inp.lines + extra);
    var l :| l in big.lines && Keeps(big, l, j);
    TotalPositive(inp.lines, Claiming(j));
    var m :| m in inp.lines && Claiming(j)(m) > 0;
    AcceptedIsAnchored(big, l);
    if m != l {
      TwoClaims(big.lines, m, l, j);
    }
    StillAccepted(inp, extra, l);
    assert Keeps(inp, l, j);
  }

  /** A line that is accepted among more lines was accepted among fewer. */
  lemma StillAccepted(inp: Input, extra: seq<Line>, l: Line)
    requires l in inp.lines && Judge(inp.(lines := inp.lines + extra), l).Accepted?
    ensures Judge(inp, l) == Judge(inp.(lines := inp.lines + extra), l)
  {
    hide Agrees;
    var big := inp.(lines := inp.lines + extra);
    var i :| 0 <= i < |inp.lines| && inp.lines[i] == l;
    forall k | k in l.Ids() ensures ClaimCount(inp.lines, k) == 1 {
      TotalConcat(inp.lines, extra, Claiming(k));
      TotalHas(inp.lines, i, Claiming(k));
    }
    StableAnchorsSame(inp, big, l.Ids());
  }

  /** The GPU map has no such monotony: repeating one of two lines that contest
      a slot drops that line and hands the slot to the other. */
  lemma AppendingCanFreeASlot(before: Roster, after: Roster, a: Line, b: Line, s: Slot, p: Parsed, q: Parsed)
    requires var inp := Input([a, b], before, after);
      && IsParse(inp, p) && IsParse(inp.(lines := [a, b] + [b]), q)
      && Judge(inp, a).Accepted? && Judge(inp, b).Accepted?
      && ClaimsOf(inp, a) == Some([s]) && ClaimsOf(inp, b) == Some([s])
    ensures s !in p.alloc && s in q.alloc && q.alloc[s] == a.Ids()[0]
  {
    hide Agrees, GpuClaims, Identities, RejectedFor;
    var inp := Input([a, b], before, after);
    var big := inp.(lines := [a, b] + [b]);
    CountTwo(a, b, SlotClaims(inp, s));
    RepeatingDrops(before, after, a, b, s);
    CountThree(a, b, SlotClaims(big, s));
    hide Judge;
    assert ClaimsSlot(big, a, s) && a in big.lines;
  }

  /** The repeated line is rejected, the other keeps its claim. */
  lemma RepeatingDrops(before: Roster, after: Roster, a: Line, b: Line, s: Slot)
    requires var inp := Input([a, b], before, after);
      && Judge(inp, a).Accepted? && Judge(inp, b).Accepted? && ClaimsOf(inp, a) == Some([s])
    ensures var big := Input([a, b] + [b], before, after);
      ClaimsOf(big, a) == Some([s]) && Judge(big, a).Accepted? && !Judge(big, b).Accepted?
  {
    hide Agrees, GpuClaims;
    var inp := Input([a, b], before, after);
    var big := inp.(lines := [a, b] + [b]);
    assert a.Ids()[0] in a.Ids() && b.Ids()[0] in b.Ids();
    forall j | j in a.Ids() ensures ClaimCount(big.lines, j) == 1 {
      CountTwo(a, b, Claiming(j));
      CountThree(a, b, Claiming(j));
    }
    CountThree(a, b, Claiming(b.Ids()[0]));
    StableAnchorsSame(inp, big, a.Ids());
  }

  // Two jobs on the same card of one node, each claimed by one line.
  const ON_N := Anchor("u", 7, "RUNNING", ["n"])
  const ROSTER: Roster := map["1" := ON_N, "2" := ON_N]
  const CARD := Slot("n", 0)

  function LineOn(j: Jid): Line {
    Line([j], false, false, false, Some(j), Some(("u", 7)), Some("RUNNING"), Some("n"),
         Some("/"), Some("/o"), Some("/e"), "", [Segment("n", ["0"], 1)])
  }

  lemma LineOnIds(j: Jid)
    ensures LineOn(j).Ids() == [j]
  {
    assert [j][..0] == [];
    assert Dedup([j]) == [j];
  }

  lemma IndexZero()
    ensures GpuIndices(Segment("n", ["0"], 1)) == Some([0])
  {
    Nodelist.OneNumber('0');
    var zero: seq<string> := ["0"];
    assert Nodelist.AllDigits("0") && zero[1..] == [] && Numbers([]) == Some([]);
    assert "0"[..0] == "" && Nodelist.Int("0") == 0;
    assert [0] + [] == [0];
    assert Numbers(zero) == Some([0]);
    assert IndexGroups([], MAX_GPU_INDICES - 1) == Some([]);
    hide Nodelist.StrictRange, Numbers;
    assert IndexGroups(zero, MAX_GPU_INDICES) == Some([0] + []);
  }

  lemma LineOnClaims(j: Jid)
    ensures GpuClaims(LineOn(j), ["n"]) == Some([CARD])
  {
    hide GpuIndices, Nodelist.StrictExpand;
    var seg, on: seq<Node>, none: set<Node> := Segment("n", ["0"], 1), ["n"], {};
    Nodelist.OneHost('n');
    IndexZero();
    assert on[1..] == [] && SlotsOn("n", [0]) == [CARD];
    assert CrossSlots([], [0]) == [];
    assert CrossSlots(on, [0]) == [CARD] + [];
    assert [CARD] + [] == [CARD];
    assert [seg][1..] == [] && none + AsSet(on) == AsSet(on) && AsSet(on) * none == none;
    assert SegmentClaims([], AsSet(on), AsSet(on)) == Some(([], AsSet(on)));
    assert SegmentClaims([seg], AsSet(on), none) == Some(([CARD], AsSet(on)));
  }

  lemma LineOnAccepted(inp: Input, j: Jid)
    requires inp.before == inp.after == ROSTER && j in ROSTER && ClaimCount(inp.lines, j) == 1
    ensures Judge(inp, LineOn(j)) == Accepted(ON_N) && ClaimsOf(inp, LineOn(j)) == Some([CARD])
  {
    hide ClaimCount, GpuClaims, Nodelist.StrictExpand;
    LineOnIds(j);
    LineOnClaims(j);
    Nodelist.OneHost('n');
    assert StableAnchors(inp, [j]) == [ON_N] + StableAnchors(inp, []);
    assert ["n"] == ["n"];
  }

  /** Such an input: the parser gives the card to nobody at first, and to job 1
      once job 2's line is repeated. */
  method ContestedCardIsHandedOver() returns (p: Parsed, q: Parsed)
    ensures IsParse(Input([LineOn("1"), LineOn("2")], ROSTER, ROSTER), p)
    ensures IsParse(Input([LineOn("1"), LineOn("2"), LineOn("2")], ROSTER, ROSTER), q)
    ensures CARD !in p.alloc && CARD in q.alloc && q.alloc[CARD] == "1"
  {
    hide IsParse, Judge, ClaimsOf, GpuClaims;
    var a, b := LineOn("1"), LineOn("2");
    var inp := Input([a, b], ROSTER, ROSTER);
    var big := Input([a, b, b], ROSTER, ROSTER);
    var first := ParseLegacyJobs(0, inp);
    var second := ParseLegacyJobs(0, big);
    p, q := first.value, second.value;
    assert [a, b] + [b] == [a, b, b];
    LineOnIds("1");
    LineOnIds("2");
    CountTwo(a, b, Claiming("1"));
    CountTwo(a, b, Claiming("2"));
    LineOnAccepted(inp, "1");
    LineOnAccepted(inp, "2");
    AppendingCanFreeASlot(ROSTER, ROSTER, a, b, CARD, p, q);
  }

  // Exactly what appending does to a slot.

  ghost predicate SharesId(l: Line, extra: seq<Line>) {
    exists e, j :: e in extra && j in e.Ids() && j in l.Ids()
  }

  /** A line's claims to a slot, unless an appended line shares an id with it. */
  ghost function ClaimsLeft(inp: Input, extra: seq<Line>, s: Slot): Line -> nat {
    var claims := SlotClaims(inp, s);
    (l: Line) => if SharesId(l, extra) then 0 else claims(l)
  }

  lemma SharingLoses(inp: Input, extra: seq<Line>, l: Line, s: Slot)
    requires l in inp.lines && SharesId(l, extra)
    ensures SlotClaims(inp.(lines := inp.lines + extra), s)(l) == 0
  {
    hide Agrees, AnchorOf, GpuClaims;
    var big := inp.(lines := inp.lines + extra);
    var e, j :| e in extra && j in e.Ids() && j in l.Ids();
    var i :| 0 <= i < |inp.lines| && inp.lines[i] == l;
    var k :| 0 <= k < |extra| && extra[k] == e;
    TotalConcat(inp.lines, extra, Claiming(j));
    TotalHas(inp.lines, i, Claiming(j));
    TotalHas(extra, k, Claiming(j));
    assert !Unique(big, l);
  }

  lemma {:induction false} NobodyClaims(lines: seq<Line>, j: Jid)
    requires forall e :: e in lines ==> j !in e.Ids()
    ensures ClaimCount(lines, j) == 0
  {
    if lines != [] {
      assert lines[0] in lines;
      NobodyClaims(lines[1..], j);
    }
  }

  lemma NotSharingKeeps(inp: Input, extra: seq<Line>, l: Line, s: Slot)
    requires !SharesId(l, extra)
    ensures ClaimsOf(inp.(lines := inp.lines + extra), l) == ClaimsOf(inp, l)
    ensures SlotClaims(inp.(lines := inp.lines + extra), s)(l) == SlotClaims(inp, s)(l)
  {
    hide Judge, GpuClaims;
    NotSharingJudged(inp, extra, l);
  }

  lemma NotSharingJudged(inp: Input, extra: seq<Line>, l: Line)
    requires !SharesId(l, extra)
    ensures Judge(inp.(lines := inp.lines + extra), l) == Judge(inp, l)
  {
    hide Agrees, GpuClaims, SharesId, ClaimCount;
    var big := inp.(lines := inp.lines + extra);
    forall j | j in l.Ids() ensures ClaimCount(big.lines, j) == ClaimCount(inp.lines, j) {
      NotSharingCounts(inp, extra, l, j);
    }
    assert Unique(big, l) == Unique(inp, l);
    StableAnchorsSame(inp, big, l.Ids());
  }

  lemma NotSharingCounts(inp: Input, extra: seq<Line>, l: Line, j: Jid)
    requires !SharesId(l, extra) && j in l.Ids()
    ensures ClaimCount(inp.lines + extra, j) == ClaimCount(inp.lines, j)
  {
    TotalConcat(inp.lines, extra, Claiming(j));
    NobodyClaims(extra, j);
  }

  /** After appending, a slot is allocated if and only if there is one claim to
      it in all: by an original line that shares no id with an appended one, or
      by an appended line. */
  lemma SlotAfterAppending(inp: Input, extra: seq<Line>, q: Parsed, s: Slot)
    requires IsParse(inp.(lines := inp.lines + extra), q)
    ensures s in q.alloc <==>
      Total(inp.lines, ClaimsLeft(inp, extra, s)) + Total(extra, SlotClaims(inp.(lines := inp.lines + extra), s)) == 1
  {
    hide SharesId, SlotClaims, Identities, RejectedFor;
    var big := inp.(lines := inp.lines + extra);
    TotalConcat(inp.lines, extra, SlotClaims(big, s));
    forall l | l in inp.lines ensures SlotClaims(big, s)(l) == ClaimsLeft(inp, extra, s)(l) {
      if SharesId(l, extra) {
        SharingLoses(inp, extra, l, s);
      } else {
        NotSharingKeeps(inp, extra, l, s);
      }
    }
    TotalSame(inp.lines, SlotClaims(big, s), ClaimsLeft(inp, extra, s));
  }

  /** So a slot is newly allocated if and only if it was unclaimed or contested
      and that count comes out as one. */
  lemma NewlyAllocatedIff(inp: Input, extra: seq<Line>, p: Parsed, q: Parsed, s: Slot)
    requires IsParse(inp, p) && IsParse(inp.(lines := inp.lines + extra), q)
    ensures s in q.alloc && s !in p.alloc <==>
      && Total(inp.lines, SlotClaims(inp, s)) != 1
      && Total(inp.lines, ClaimsLeft(inp, extra, s)) + Total(extra, SlotClaims(inp.(lines := inp.lines + extra), s)) == 1
  {
    hide SlotClaims, ClaimsLeft, Identities, RejectedFor;
    SlotAfterAppending(inp, extra, q, s);
  }

  /** When no appended line claims an id that an original line claims, no slot
      newly goes to an original job, and none that an original job keeps moves. */
  lemma ForeignLinesFreeNothing(inp: Input, extra: seq<Line>, p: Parsed, q: Parsed, s: Slot, l: Line)
    requires IsParse(inp, p) && IsParse(inp.(lines := inp.lines + extra), q)
    requires forall m :: m in inp.lines ==> !SharesId(m, extra)
    requires s in q.alloc && l in inp.lines && q.alloc[s] in l.Ids()
    ensures s in p.alloc && p.alloc[s] == q.alloc[s]
  {
    hide SlotClaims, Identities, RejectedFor, Judge, ClaimsOf, SharesId, SlotCount;
    var big := inp.(lines := inp.lines + extra);
    SlotClaimant(big, s);
    var m :| m in big.lines && ClaimsSlot(big, m, s);
    ClaimantHasId(big, m, s);
    assert q.alloc[s] == m.Ids()[0] && m.Ids()[0] in m.Ids();
    NotAppended(inp, extra, l, m, q.alloc[s]);
    NotSharingKeeps(inp, extra, m, s);
    assert ClaimsSlot(inp, m, s);
    SlotAfterAppending(inp, extra, q, s);
    AllKeepClaims(inp, extra, s);
    ClaimCounts(inp, m, s);
    assert SlotCount(inp, s) == 1;
  }

  lemma ClaimantHasId(inp: Input, l: Line, s: Slot)
    requires ClaimsSlot(inp, l, s)
    ensures l.Ids() != [] && l.Ids()[0] in l.Ids()
  {
    hide Agrees, GpuClaims, AnchorOf;
    ClaimsArePlaced(inp, l, s);
    AcceptedHasId(inp, l);
  }

  lemma NotAppended(inp: Input, extra: seq<Line>, l: Line, m: Line, j: Jid)
    requires l in inp.lines && !SharesId(l, extra) && j in l.Ids() && j in m.Ids() && m in inp.lines + extra
    ensures m in inp.lines
  {
  }

  lemma AllKeepClaims(inp: Input, extra: seq<Line>, s: Slot)
    requires forall m :: m in inp.lines ==> !SharesId(m, extra)
    ensures Total(inp.lines, ClaimsLeft(inp, extra, s)) == SlotCount(inp, s)
  {
    hide SharesId, SlotClaims;
    TotalSame(inp.lines, ClaimsLeft(inp, extra, s), SlotClaims(inp, s));
  }

  lemma ClaimCounts(inp: Input, l: Line, s: Slot)
    requires l in inp.lines && ClaimsSlot(inp, l, s)
    ensures SlotCount(inp, s) >= 1
  {
    hide ClaimsOf;
    var i :| 0 <= i < |inp.lines| && inp.lines[i] == l;
    TotalHas(inp.lines, i, SlotClaims(inp, s));
  }

  lemma CountTwo(a: Line, b: Line, f: Line -> nat)
    ensures Total([a, b], f) == f(a) + f(b)
  {
    assert [a, b][1..] == [b] && [b][1..] == [];
    assert Total([b], f) == f(b);
  }

  lemma CountThree(a: Line, b: Line, f: Line -> nat)
    ensures Total([a, b] + [b], f) == f(a) + f(b) + f(b)
  {
    CountTwo(a, b, f);
    TotalConcat([a, b], [b], f);
    assert Total([b], f) == f(b);
  }

  // ---------------------------------------------------------------------------
  // The parser
  // ---------------------------------------------------------------------------

  const MAX_OUTPUT_CHARS := 32 * 1024 * 1024

  method CountClaims(lines: seq<Line>) returns (counts: map<Jid, nat>)
    ensures forall j :: (if j in counts then counts[j] else 0) == ClaimCount(lines, j)
  {
    counts := map[];
    for i := 0 to |lines|
      invariant forall j :: (if j in counts then counts[j] else 0) == ClaimCount(lines[..i], j)
    {
      forall j ensures ClaimCount(lines[..i + 1], j) == ClaimCount(lines[..i], j) + Claiming(j)(lines[i]) {
        TotalSnoc(lines, i, Claiming(j));
      }
      var ids := lines[i].Ids();
      counts := counts + map j | j in ids :: 1 + if j in counts then counts[j] else 0;
    }
    assert lines[..|lines|] == lines;
  }

  method AnchorList(inp: Input, ids: seq<Jid>) returns (anchors: seq<Anchor>)
    ensures anchors == StableAnchors(inp, ids)
  {
    anchors := [];
    assert ids[0..] == ids;
    for i := 0 to |ids|
      invariant anchors + StableAnchors(inp, ids[i..]) == StableAnchors(inp, ids)
    {
      assert ids[i..][0] == ids[i] && ids[i..][1..] == ids[i + 1..];
      ghost var before, rest := anchors, StableAnchors(inp, ids[i + 1..]);
      if Stable(inp, ids[i]) {
        anchors := anchors + [inp.before[ids[i]]];
        assert before + ([inp.before[ids[i]]] + rest) == anchors + rest;
      } else {
        assert [] + rest == rest;
      }
    }
  }

  method JudgeLine(inp: Input, counts: map<Jid, nat>, l: Line) returns (v: Verdict)
    requires forall j :: (if j in counts then counts[j] else 0) == ClaimCount(inp.lines, j)
    ensures v == Judge(inp, l)
  {
    hide Agrees, StableAnchors;
    var ids := l.Ids();
    if forall j :: j in ids ==> j !in inp.before && j !in inp.after {
      return Ignored;
    }
    if exists j :: j in ids && (if j in counts then counts[j] else 0) != 1 {
      assert !Unique(inp, l);
      return Rejected;
    }
    var anchors := AnchorList(inp, ids);
    if anchors == [] || exists i :: 0 <= i < |anchors| && anchors[i] != anchors[0] {
      return Rejected;
    }
    var ok := FieldsAgree(l, anchors[0]);
    v := if ok then Accepted(anchors[0]) else Rejected;
  }

  /** The field checks, in the order of the source. */
  method FieldsAgree(l: Line, a: Anchor) returns (ok: bool)
    ensures ok == Agrees(l, a)
  {
    if l.claimed == [] || l.tooLong || l.controlChars || l.repeatedField {
      return false;
    }
    if l.rawJobId.None? || l.owner.None? || l.state.None? || l.nodeList.None? || l.rawJobId.value != l.Ids()[0] {
      return false;
    }
    var nodes := Nodelist.StrictExpandNodes(l.nodeList.value);
    if nodes.None? || l.owner.value != (a.user, a.uid) || l.state.value != a.state || nodes.value != a.nodes {
      return false;
    }
    return l.workdir.Some? && l.stdout.Some? && l.stderr.Some?;
  }

  function PutBefore(slots: seq<Slot>, rest: Option<(seq<Slot>, set<Node>)>): Option<(seq<Slot>, set<Node>)> {
    if rest.None? then None else Some((slots + rest.value.0, rest.value.1))
  }

  lemma SegmentStep(segments: seq<Segment>, i: nat, expected: set<Node>, seen: set<Node>, slots: seq<Slot>)
    requires i < |segments|
    ensures var nodes, indices := Nodelist.StrictExpand(segments[i].nodes), GpuIndices(segments[i]);
      PutBefore(slots, SegmentClaims(segments[i..], expected, seen)) ==
        if nodes.None? || indices.None? || !(AsSet(nodes.value) <= expected) || AsSet(nodes.value) * seen != {} then None
        else PutBefore(slots + CrossSlots(nodes.value, indices.value),
                       SegmentClaims(segments[i + 1..], expected, seen + AsSet(nodes.value)))
  {
    hide Nodelist.StrictExpand, GpuIndices, CrossSlots;
    var nodes, indices := Nodelist.StrictExpand(segments[i].nodes), GpuIndices(segments[i]);
    assert segments[i..][0] == segments[i] && segments[i..][1..] == segments[i + 1..];
    if nodes.Some? && indices.Some? {
      var more, rest := CrossSlots(nodes.value, indices.value), SegmentClaims(segments[i + 1..], expected, seen + AsSet(nodes.value));
      assert rest.Some? ==> slots + (more + rest.value.0) == slots + more + rest.value.0;
    }
  }

  method LegacyGpuClaims(l: Line, placement: seq<Node>) returns (claims: Option<seq<Slot>>)
    ensures claims == GpuClaims(l, placement)
  {
    hide Nodelist.StrictExpand, GpuIndices, CrossSlots;
    if l.segments == [] {
      return Some([]);
    }
    var expected, seen: set<Node>, slots: seq<Slot> := AsSet(placement), {}, [];
    ghost var goal := SegmentClaims(l.segments, expected, {});
    assert l.segments[0..] == l.segments && (goal.Some? ==> slots + goal.value.0 == goal.value.0);
    for i := 0 to |l.segments|
      invariant goal == PutBefore(slots, SegmentClaims(l.segments[i..], expected, seen))
    {
      SegmentStep(l.segments, i, expected, seen, slots);
      var nodes := Nodelist.StrictExpandNodes(l.segments[i].nodes);
      var indices := GpuIndices(l.segments[i]);
      if nodes.None? || indices.None? || !(AsSet(nodes.value) <= expected) || AsSet(nodes.value) * seen != {} {
        return None;
      }
      seen := seen + AsSet(nodes.value);
      slots := slots + CrossSlots(nodes.value, indices.value);
    }
    assert l.segments[|l.segments|..] == [] && slots + [] == slots;
    if seen != expected {
      return None;
    }
    return Some(slots);
  }

  // The slot table: every claim as (allocation id, ids to reject on conflict).

  type Entry = (Jid, seq<Jid>)

  function At(table: map<Slot, seq<Entry>>, s: Slot): seq<Entry> {
    if s in table then table[s] else []
  }

  function AddClaims(table: map<Slot, seq<Entry>>, slots: seq<Slot>, e: Entry): map<Slot, seq<Entry>>
    decreases |slots|
  {
    if slots == [] then table
    else AddClaims(table[slots[0] := At(table, slots[0]) + [e]], slots[1..], e)
  }

  lemma {:induction false} AddClaimsAdds(table: map<Slot, seq<Entry>>, slots: seq<Slot>, e: Entry, s: Slot)
    ensures var r := AddClaims(table, slots, e);
      && |At(r, s)| == |At(table, s)| + multiset(slots)[s]
      && (forall c :: c in At(r, s) <==> c in At(table, s) || (c == e && s in slots))
    decreases |slots|
  {
    if slots != [] {
      assert slots == [slots[0]] + slots[1..];
      AddClaimsAdds(table[slots[0] := At(table, slots[0]) + [e]], slots[1..], e, s);
    }
  }

  /** The entry a line makes for each slot it claims. */
  function EntryOf(l: Line): Entry {
    (if l.claimed != [] then l.Ids()[0] else "", l.Ids())
  }

  ghost predicate Collected(inp: Input, done: seq<Line>, table: map<Slot, seq<Entry>>) {
    && (forall s :: |At(table, s)| == Total(done, SlotClaims(inp, s)))
    && (forall s, c :: c in At(table, s) ==> exists l :: l in done && ClaimsSlot(inp, l, s) && c == EntryOf(l))
    && (forall s, l :: l in done && ClaimsSlot(inp, l, s) ==> EntryOf(l) in At(table, s))
  }

  lemma CollectMore(inp: Input, i: nat, table: map<Slot, seq<Entry>>)
    requires i < |inp.lines| && Collected(inp, inp.lines[..i], table)
    ensures var l := inp.lines[i];
      Collected(inp, inp.lines[..i + 1],
                if ClaimsOf(inp, l).Some? then AddClaims(table, ClaimsOf(inp, l).value, EntryOf(l)) else table)
  {
    hide ClaimsOf;
    var l := inp.lines[i];
    var slots := if ClaimsOf(inp, l).Some? then ClaimsOf(inp, l).value else [];
    var table' := AddClaims(table, slots, EntryOf(l));
    var done, done' := inp.lines[..i], inp.lines[..i + 1];
    assert done' == done + [l];
    forall s ensures |At(table', s)| == Total(done', SlotClaims(inp, s)) {
      TotalSnoc(inp.lines, i, SlotClaims(inp, s));
      AddClaimsAdds(table, slots, EntryOf(l), s);
    }
    forall s, c | c in At(table', s) ensures exists m :: m in done' && ClaimsSlot(inp, m, s) && c == EntryOf(m) {
      AddClaimsAdds(table, slots, EntryOf(l), s);
      if c in At(table, s) {
        var m :| m in done && ClaimsSlot(inp, m, s) && c == EntryOf(m);
        assert m in done';
      } else {
        assert l in done' && ClaimsSlot(inp, l, s);
      }
    }
    forall s, m | m in done' && ClaimsSlot(inp, m, s) ensures EntryOf(m) in At(table', s) {
      AddClaimsAdds(table, slots, EntryOf(l), s);
    }
  }

  /** The ids refused so far for the sake of the lines in `done` themselves. */
  ghost predicate RefusedIds(inp: Input, done: seq<Line>, rejected: set<Jid>) {
    forall j :: j in rejected <==> exists l :: l in done && j in l.Ids() && Refused(inp, l)
  }

  /** The record loop: identities, refusals and the slot table. */
  method ReadRecords(inp: Input) returns (p: Parsed, rejected: set<Jid>, table: map<Slot, seq<Entry>>)
    ensures Identities(inp, inp.lines, p)
    ensures RefusedIds(inp, inp.lines, rejected)
    ensures Collected(inp, inp.lines, table)
  {
    hide Judge, ClaimsOf, SlotClaims;
    var counts := CountClaims(inp.lines);
    p, rejected, table := Parsed(map[], map[], map[], map[], map[], {}), {}, map[];
    assert Identities(inp, inp.lines[..0], p) && RefusedIds(inp, inp.lines[..0], rejected) && Collected(inp, inp.lines[..0], table);
    hide Identities, RefusedIds, Collected, Keep, AddClaims;
    for i := 0 to |inp.lines|
      invariant Identities(inp, inp.lines[..i], p)
      invariant RefusedIds(inp, inp.lines[..i], rejected)
      invariant Collected(inp, inp.lines[..i], table)
    {
      var l := inp.lines[i];
      var ids := l.Ids();
      KeepMore(inp, i, p);
      RefuseMore(inp, i, rejected);
      CollectMore(inp, i, table);
      ClaimsAre(inp, l);
      var v := JudgeLine(inp, counts, l);
      var claims: Option<seq<Slot>> := Some([]);
      if v.Accepted? {
        p := Keep(p, l, v.anchor);
        if Active(v.anchor) {
          claims := LegacyGpuClaims(l, v.anchor.nodes);
        }
      }
      if v.Rejected? || claims.None? {
        rejected := rejected + set j | j in ids;
      }
      if claims.Some? {
        table := AddClaims(table, claims.value, EntryOf(l));
      }
    }
    assert inp.lines[..|inp.lines|] == inp.lines;
  }

  lemma ClaimsAre(inp: Input, l: Line)
    ensures ClaimsOf(inp, l) ==
      var v := Judge(inp, l); if v.Accepted? && Active(v.anchor) then GpuClaims(l, v.anchor.nodes) else Some([])
  {
    hide Judge, GpuClaims;
  }

  /** An accepted line's entries in the identity maps. */
  function Keep(p: Parsed, l: Line, a: Anchor): Parsed {
    var ids := l.Ids();
    p.(users := Enter(p.users, ids, a.user), uids := Enter(p.uids, ids, a.uid),
       details := Enter(p.details, ids, l.detail), logs := Enter(p.logs, ids, l.Logs()))
  }

  /** `for jobid in ids: m[jobid] = v` */
  function Enter<V>(m: map<Jid, V>, ids: seq<Jid>, v: V): (r: map<Jid, V>)
    ensures forall j :: j in r <==> j in m || j in ids
    ensures forall j :: j in r ==> r[j] == if j in ids then v else m[j]
  {
    m + map j | j in ids :: v
  }

  lemma KeepMore(inp: Input, i: nat, p: Parsed)
    requires i < |inp.lines| && Identities(inp, inp.lines[..i], p)
    ensures var l := inp.lines[i]; var v := Judge(inp, l);
      Identities(inp, inp.lines[..i + 1], if v.Accepted? then Keep(p, l, v.anchor) else p)
  {
    hide Judge, Agrees, Enter, AnchorOf, KeptIn, Keep;
    var l := inp.lines[i];
    var v := Judge(inp, l);
    var q := if v.Accepted? then Keep(p, l, v.anchor) else p;
    forall m, j | m in inp.lines[..i + 1] && Keeps(inp, m, j) ensures Recorded(inp, m, j, q) {
      KeepOne(inp, i, p, m, j);
    }
    KeepKeys(inp, i, p);
  }

  lemma EnterKeys<V>(m: map<Jid, V>, ids: seq<Jid>, v: V)
    ensures Enter(m, ids, v).Keys == m.Keys + set j | j in ids
  {
  }

  lemma KeepKeys(inp: Input, i: nat, p: Parsed)
    requires i < |inp.lines| && Identities(inp, inp.lines[..i], p)
    ensures var l := inp.lines[i]; var v := Judge(inp, l);
      var q := if v.Accepted? then Keep(p, l, v.anchor) else p;
      && (forall j :: j in q.users ==> KeptIn(inp, inp.lines[..i + 1], j))
      && q.uids.Keys == q.users.Keys && q.details.Keys == q.users.Keys && q.logs.Keys == q.users.Keys
  {
    hide Judge, Agrees, Enter, AnchorOf;
    var l := inp.lines[i];
    var v, ids := Judge(inp, l), l.Ids();
    var q := if v.Accepted? then Keep(p, l, v.anchor) else p;
    forall j | j in q.users ensures KeptIn(inp, inp.lines[..i + 1], j) {
      if j in p.users {
        var m :| m in inp.lines[..i] && Keeps(inp, m, j);
        assert m in inp.lines[..i + 1];
      } else {
        assert Keeps(inp, l, j) && l == inp.lines[..i + 1][i];
      }
    }
    if v.Accepted? {
      EnterKeys(p.users, ids, v.anchor.user);
      EnterKeys(p.uids, ids, v.anchor.uid);
      EnterKeys(p.details, ids, l.detail);
      EnterKeys(p.logs, ids, l.Logs());
    }
  }

  lemma RecordedNow(inp: Input, p: Parsed, l: Line, j: Jid)
    requires Keeps(inp, l, j)
    ensures Recorded(inp, l, j, Keep(p, l, Judge(inp, l).anchor))
  {
    hide Judge;
  }

  lemma RecordedStill(inp: Input, p: Parsed, l: Line, a: Anchor, m: Line, j: Jid)
    requires Recorded(inp, m, j, p) && j !in l.Ids()
    ensures Recorded(inp, m, j, Keep(p, l, a))
  {
    hide Judge;
  }

  lemma RecordedBefore(inp: Input, lines: seq<Line>, p: Parsed, m: Line, j: Jid)
    requires Identities(inp, lines, p) && m in lines && Keeps(inp, m, j)
    ensures Recorded(inp, m, j, p)
  {
    hide Judge;
  }

  lemma KeepOne(inp: Input, i: nat, p: Parsed, m: Line, j: Jid)
    requires i < |inp.lines| && Identities(inp, inp.lines[..i], p) && m in inp.lines[..i + 1] && Keeps(inp, m, j)
    ensures var l := inp.lines[i]; var v := Judge(inp, l);
      Recorded(inp, m, j, if v.Accepted? then Keep(p, l, v.anchor) else p)
  {
    hide Judge, Keep, Recorded, Identities, Anchored, Unique;
    var l := inp.lines[i];
    assert inp.lines[..i + 1] == inp.lines[..i] + [l];
    if m == l {
      RecordedNow(inp, p, l, j);
    } else {
      assert m in inp.lines[..i] && m in inp.lines;
      RecordedBefore(inp, inp.lines[..i], p, m, j);
      if Judge(inp, l).Accepted? {
        AcceptedIsAnchored(inp, l);
        UniqueIsSole(inp, l);
        RecordedStill(inp, p, l, Judge(inp, l).anchor, m, j);
      }
    }
  }

  lemma RefuseMore(inp: Input, i: nat, rejected: set<Jid>)
    requires i < |inp.lines| && RefusedIds(inp, inp.lines[..i], rejected)
    ensures var l := inp.lines[i]; var ids := l.Ids();
      RefusedIds(inp, inp.lines[..i + 1], if Refused(inp, l) then rejected + set j | j in ids else rejected)
  {
    hide Judge, ClaimsOf;
    assert inp.lines[..i + 1] == inp.lines[..i] + [inp.lines[i]];
  }

  /** The slot loop: one claim allocates, any other number rejects. */
  method ResolveSlots(inp: Input, table: map<Slot, seq<Entry>>) returns (alloc: map<Slot, Jid>, rejected: set<Jid>)
    requires Collected(inp, inp.lines, table)
    ensures forall s :: s in alloc <==> s in table && |table[s]| == 1
    ensures forall s :: s in alloc ==> alloc[s] == table[s][0].0
    ensures forall j :: j in rejected <==> exists s, c :: s in table && |table[s]| != 1 && c in table[s] && j in c.1
  {
    hide Collected;
    alloc, rejected := map[], {};
    var rest := table.Keys;
    while rest != {}
      invariant rest <= table.Keys
      invariant forall s :: s in alloc <==> s in table.Keys - rest && |table[s]| == 1
      invariant forall s :: s in alloc ==> alloc[s] == table[s][0].0
      invariant forall j :: j in rejected <==>
        exists s, c :: s in table.Keys - rest && |table[s]| != 1 && c in table[s] && j in c.1
      decreases rest
    {
      var s :| s in rest;
      rest := rest - {s};
      if |table[s]| != 1 {
        rejected := rejected + set c, j | c in table[s] && j in c.1 :: j;
      } else {
        alloc := alloc[s := table[s][0].0];
      }
    }
  }

  method ParseLegacyJobs(outputChars: nat, inp: Input) returns (r: Option<Parsed>)
    ensures r.Some? <==> outputChars <= MAX_OUTPUT_CHARS
    ensures r.Some? ==> IsParse(inp, r.value)
  {
    if outputChars > MAX_OUTPUT_CHARS {
      return None;
    }
    var p, rejected, table := ReadRecords(inp);
    var alloc, contested := ResolveSlots(inp, table);
    SlotsAreParsed(inp, p, rejected, table, alloc, contested);
    return Some(p.(alloc := alloc, rejected := rejected + contested));
  }

  lemma AcceptedHasId(inp: Input, l: Line)
    requires Judge(inp, l).Accepted?
    ensures l.claimed != [] && l.Ids() != []
  {
    AcceptedIsAnchored(inp, l);
  }

  /** The ids of the entries in overfull slots are those of the lines with a contested slot. */
  lemma ContestedIds(inp: Input, table: map<Slot, seq<Entry>>, contested: set<Jid>, j: Jid)
    requires Collected(inp, inp.lines, table)
    requires forall k :: k in contested <==> exists s, c :: s in table && |table[s]| != 1 && c in table[s] && k in c.1
    ensures j in contested <==> exists l :: l in inp.lines && j in l.Ids() && Contested(inp, l)
  {
    hide ClaimsSlot, SlotClaims;
    if j in contested {
      var s, c :| s in table && |table[s]| != 1 && c in table[s] && j in c.1;
      assert c in At(table, s);
      var l :| l in inp.lines && ClaimsSlot(inp, l, s) && c == EntryOf(l);
      assert SlotCount(inp, s) == |At(table, s)|;
      assert Contested(inp, l);
    }
    if exists l :: l in inp.lines && j in l.Ids() && Contested(inp, l) {
      var l :| l in inp.lines && j in l.Ids() && Contested(inp, l);
      var s :| ClaimsSlot(inp, l, s) && SlotCount(inp, s) != 1;
      assert EntryOf(l) in At(table, s) && SlotCount(inp, s) == |At(table, s)|;
    }
  }

  lemma SlotsAllocate(inp: Input, table: map<Slot, seq<Entry>>, alloc: map<Slot, Jid>)
    requires Collected(inp, inp.lines, table)
    requires forall s :: s in alloc <==> s in table && |table[s]| == 1
    requires forall s :: s in alloc ==> alloc[s] == table[s][0].0
    ensures Allocated(inp, alloc)
  {
    hide Judge, SlotClaims, ClaimsOf;
    forall l, s | l in inp.lines && ClaimsSlot(inp, l, s) && s in alloc ensures l.claimed != [] && alloc[s] == l.Ids()[0] {
      ClaimsArePlaced(inp, l, s);
      AcceptedHasId(inp, l);
      assert EntryOf(l) in At(table, s);
    }
    forall s ensures s in alloc <==> SlotCount(inp, s) == 1 {
      assert SlotCount(inp, s) == |At(table, s)|;
    }
  }

  lemma RejectedTogether(inp: Input, rejected: set<Jid>, contested: set<Jid>)
    requires RefusedIds(inp, inp.lines, rejected)
    requires forall j :: j in contested <==> exists l :: l in inp.lines && j in l.Ids() && Contested(inp, l)
    ensures RejectedFor(inp, rejected + contested)
  {
    hide Judge, SlotClaims, ClaimsOf, Refused, Contested;
  }

  lemma SlotsAreParsed(inp: Input, p: Parsed, rejected: set<Jid>, table: map<Slot, seq<Entry>>, alloc: map<Slot, Jid>, contested: set<Jid>)
    requires Identities(inp, inp.lines, p) && RefusedIds(inp, inp.lines, rejected) && Collected(inp, inp.lines, table)
    requires forall s :: s in alloc <==> s in table && |table[s]| == 1
    requires forall s :: s in alloc ==> alloc[s] == table[s][0].0
    requires forall j :: j in contested <==> exists s, c :: s in table && |table[s]| != 1 && c in table[s] && j in c.1
    ensures IsParse(inp, p.(alloc := alloc, rejected := rejected + contested))
  {
    hide Judge, SlotClaims, ClaimsOf, Refused, Contested, Collected, RefusedIds, Allocated, RejectedFor;
    SlotsAllocate(inp, table, alloc);
    forall j ensures j in contested <==> exists l :: l in inp.lines && j in l.Ids() && Contested(inp, l) {
      ContestedIds(inp, table, contested, j);
    }
    RejectedTogether(inp, rejected, contested);
  }
}
