/**
What the GPU claims of a legacy line are, read off its text: which segments are
usable, how often they name each card, and what the parser allocates for it.
*/
module LegacyClaims {
  import opened Common
  import opened Legacy
  import Nodelist

  // ---------------------------------------------------------------------------
  // Reading a segment
  // ---------------------------------------------------------------------------

  /** `N/A` in any spelling: the group names no card. */
  predicate SaysNone(group: string) {
    |group| == 3 && group[0] in {'N', 'n'} && group[1] == '/' && group[2] in {'A', 'a'}
  }

  lemma SaysNoneIs(group: string)
    ensures UpperNA(group) <==> SaysNone(group)
  {
    if SaysNone(group) {
      assert group == [group[0], '/', group[2]];
    }
  }

  /** The values a bracketed index group spells out, if it is well formed. */
  function GroupValues(group: string): seq<string> {
    var r := Nodelist.StrictRange(group, MAX_GPU_INDICES);
    if SaysNone(group) || r.None? then [] else r.value
  }

  predicate SmallNumber(v: string) {
    Nodelist.AllDigits(v) && Nodelist.Int(v) <= MAX_GPU_INDEX
  }

  predicate SmallNumbers(values: seq<string>) {
    forall v :: v in values ==> SmallNumber(v)
  }

  predicate GoodGroup(group: string) {
    SaysNone(group) || (Nodelist.StrictRange(group, MAX_GPU_INDICES).Some? && SmallNumbers(GroupValues(group)))
  }

  predicate GoodGroups(groups: seq<string>) {
    forall g :: g in groups ==> GoodGroup(g)
  }

  function Says(k: nat): string -> nat {
    (v: string) => if Nodelist.AllDigits(v) && Nodelist.Int(v) == k then 1 else 0
  }

  /** How often a group names the number `k`. */
  function TimesNamed(k: nat): string -> nat {
    (group: string) => Total(GroupValues(group), Says(k))
  }

  function GroupSize(group: string): nat {
    |GroupValues(group)|
  }

  /** The IDX groups of a segment are usable: all recognised and well formed, and
      not too many numbers. */
  predicate GoodIndices(seg: Segment) {
    seg.idxMarkers == |seg.idxGroups| && GoodGroups(seg.idxGroups)
    && Total(seg.idxGroups, GroupSize) <= MAX_GPU_INDICES
  }

  function HostsOf(seg: Segment): seq<Node> {
    var r := Nodelist.StrictExpand(seg.nodes);
    if r.None? then [] else r.value
  }

  /** How often a segment claims card `s.index` of node `s.node`. */
  function TimesClaimed(s: Slot): Segment -> nat {
    (seg: Segment) => if s.node in HostsOf(seg) then Total(seg.idxGroups, TimesNamed(s.index)) else 0
  }

  predicate Usable(seg: Segment) {
    Nodelist.StrictExpand(seg.nodes).Some? && GoodIndices(seg)
  }

  ghost predicate HasHost(segments: seq<Segment>, n: Node) {
    exists i :: 0 <= i < |segments| && n in HostsOf(segments[i])
  }

  ghost predicate Apart(segments: seq<Segment>) {
    forall i, j, n :: 0 <= i < j < |segments| && n in HostsOf(segments[i]) ==> n !in HostsOf(segments[j])
  }

  /** Segments that a line may have: each usable, no node in two of them, and
      together exactly the placement. */
  ghost predicate GoodSegments(segments: seq<Segment>, nodes: seq<Node>) {
    (forall i :: 0 <= i < |segments| ==> Usable(segments[i])) && Apart(segments)
    && forall n :: n in nodes <==> HasHost(segments, n)
  }

  // ---------------------------------------------------------------------------
  // Index groups
  // ---------------------------------------------------------------------------

  lemma {:induction false} PartsFit(parts: seq<string>, room: int)
    ensures parts != [] && Nodelist.StrictParts(parts, room).Some? ==> |Nodelist.StrictParts(parts, room).value| <= room
    decreases |parts|
  {
    hide Nodelist.Int, Nodelist.Range, Nodelist.AllDigits;
    if parts != [] && Nodelist.StrictPart(parts[0], room).Some? {
      PartsFit(parts[1..], room - |Nodelist.StrictPart(parts[0], room).value|);
    }
  }

  lemma PartRoom(part: string, room: int, more: int)
    requires room <= more
    ensures Nodelist.StrictPart(part, room) ==
      var r := Nodelist.StrictPart(part, more); if r.Some? && |r.value| <= room then r else None
  {
    hide Nodelist.Int, Nodelist.Range, Nodelist.AllDigits;
  }

  /** The limit only decides whether the values fit. */
  lemma {:induction false} RoomIsEnough(parts: seq<string>, room: int, more: int)
    requires room <= more
    ensures Nodelist.StrictParts(parts, room) ==
      var r := Nodelist.StrictParts(parts, more); if r.Some? && (parts == [] || |r.value| <= room) then r else None
    decreases |parts|
  {
    hide Nodelist.StrictPart;
    if parts != [] {
      PartRoom(parts[0], room, more);
      var vs := Nodelist.StrictPart(parts[0], more);
      if vs.Some? {
        RoomIsEnough(parts[1..], room - |vs.value|, more - |vs.value|);
        PartsFit(parts[1..], more - |vs.value|);
      }
    }
  }

  lemma RangeRoom(group: string, room: int)
    requires room <= MAX_GPU_INDICES
    ensures Nodelist.StrictRange(group, room) ==
      var r := Nodelist.StrictRange(group, MAX_GPU_INDICES); if r.Some? && |r.value| <= room then r else None
  {
    hide Nodelist.StrictParts, Nodelist.SplitOn;
    RoomIsEnough(Nodelist.SplitOn(group, ','), room, MAX_GPU_INDICES);
  }

  lemma {:induction false} NumbersIff(values: seq<string>)
    ensures Numbers(values).Some? <==> SmallNumbers(values)
    decreases |values|
  {
    hide Nodelist.Int, Nodelist.AllDigits, SmallNumber;
    if values != [] {
      NumbersIff(values[1..]);
      assert SmallNumbers(values) <==> SmallNumber(values[0]) && SmallNumbers(values[1..]) by {
        assert forall v :: v in values <==> v == values[0] || v in values[1..];
      }
      NumbersStep(values);
    }
  }

  lemma NumbersStep(values: seq<string>)
    requires values != []
    ensures Numbers(values).Some? <==> SmallNumber(values[0]) && Numbers(values[1..]).Some?
    ensures Numbers(values).Some? ==> Numbers(values).value == [Nodelist.Int(values[0])] + Numbers(values[1..]).value
  {
  }

  lemma {:induction false} NumbersCount(values: seq<string>, k: nat)
    requires Numbers(values).Some?
    ensures multiset(Numbers(values).value)[k] == Total(values, Says(k))
    decreases |values|
  {
    if values != [] {
      NumbersStep(values);
      NumbersCount(values[1..], k);
      CountConcat([Nodelist.Int(values[0])], Numbers(values[1..]).value, k);
    }
  }

  lemma NoneStep(groups: seq<string>, room: int)
    requires groups != [] && SaysNone(groups[0])
    ensures GoodGroup(groups[0]) && GroupSize(groups[0]) == 0 && IndexGroups(groups, room) == IndexGroups(groups[1..], room)
  {
    SaysNoneIs(groups[0]);
    hide Nodelist.StrictRange, Numbers, SaysNone, UpperNA;
  }

  lemma RangeStep(groups: seq<string>, room: int)
    requires groups != [] && room <= MAX_GPU_INDICES && !SaysNone(groups[0])
    ensures IndexGroups(groups, room) ==
      var g := groups[0];
      if !GoodGroup(g) || GroupSize(g) > room then None
      else Joined(Numbers(GroupValues(g)), IndexGroups(groups[1..], room - GroupSize(g)))
  {
    var g := groups[0];
    SaysNoneIs(g);
    RangeRoom(g, room);
    NumbersIff(GroupValues(g));
    hide Nodelist.StrictRange, Numbers, SaysNone, UpperNA, SmallNumbers;
  }

  function Joined(a: Option<seq<nat>>, b: Option<seq<nat>>): Option<seq<nat>> {
    if a.None? || b.None? then None else Some(a.value + b.value)
  }

  lemma NoGroups()
    ensures GoodGroups([])
  {
  }

  lemma GoodGroupsStep(groups: seq<string>)
    requires groups != []
    ensures GoodGroups(groups) <==> GoodGroup(groups[0]) && GoodGroups(groups[1..])
  {
    hide GoodGroup;
    assert forall x :: x in groups <==> x == groups[0] || x in groups[1..];
  }

  lemma IndexStepIff(groups: seq<string>, room: int)
    requires groups != [] && 0 <= room <= MAX_GPU_INDICES
    ensures IndexGroups(groups, room).Some? <==>
      GoodGroup(groups[0]) && GroupSize(groups[0]) <= room && IndexGroups(groups[1..], room - GroupSize(groups[0])).Some?
  {
    hide GoodGroup, IndexGroups, SaysNone, GroupSize, Numbers, GroupValues;
    if SaysNone(groups[0]) {
      NoneStep(groups, room);
    } else {
      RangeStep(groups, room);
      GoodHasNumbers(groups[0]);
    }
  }

  lemma GoodHasNumbers(g: string)
    requires !SaysNone(g)
    ensures GoodGroup(g) ==> Numbers(GroupValues(g)).Some?
  {
    NumbersIff(GroupValues(g));
    hide Numbers, GroupValues, SmallNumbers, SaysNone;
  }

  lemma NoIndices(room: int)
    ensures IndexGroups([], room) == Some([])
  {
  }

  lemma {:induction false} IndexGroupsIff(groups: seq<string>, room: int)
    requires 0 <= room <= MAX_GPU_INDICES
    ensures IndexGroups(groups, room).Some? <==> GoodGroups(groups) && Total(groups, GroupSize) <= room
    decreases |groups|
  {
    hide GoodGroup, GroupSize, SaysNone, GoodGroups, IndexGroups;
    if groups == [] {
      NoGroups();
      NoIndices(room);
    } else {
      GoodGroupsStep(groups);
      IndexStepIff(groups, room);
      if GroupSize(groups[0]) <= room {
        IndexGroupsIff(groups[1..], room - GroupSize(groups[0]));
      }
    }
  }

  lemma IndexCountStep(groups: seq<string>, room: int, k: nat)
    requires groups != [] && room <= MAX_GPU_INDICES && IndexGroups(groups, room).Some?
    ensures var rest := IndexGroups(groups[1..], room - GroupSize(groups[0]));
      && rest.Some?
      && multiset(IndexGroups(groups, room).value)[k] == TimesNamed(k)(groups[0]) + multiset(rest.value)[k]
  {
    hide GoodGroup, SaysNone, Numbers, GroupValues, Says, IndexGroups, GroupSize;
    var g := groups[0];
    if SaysNone(g) {
      NoneStep(groups, room);
      NothingNamed(g, k);
    } else {
      RangeStep(groups, room);
      NumbersCount(GroupValues(g), k);
      CountConcat(Numbers(GroupValues(g)).value, IndexGroups(groups[1..], room - GroupSize(g)).value, k);
    }
  }

  lemma {:induction false} IndexGroupsCount(groups: seq<string>, room: int, k: nat)
    requires room <= MAX_GPU_INDICES && IndexGroups(groups, room).Some?
    ensures multiset(IndexGroups(groups, room).value)[k] == Total(groups, TimesNamed(k))
    decreases |groups|
  {
    hide IndexGroups, TimesNamed, GroupSize;
    if groups == [] {
      NoIndices(room);
    } else {
      IndexCountStep(groups, room, k);
      IndexGroupsCount(groups[1..], room - GroupSize(groups[0]), k);
    }
  }

  lemma NothingNamed(group: string, k: nat)
    requires SaysNone(group)
    ensures Total(GroupValues(group), Says(k)) == 0
  {
  }

  /** A segment's indices are accepted exactly when its groups are usable. */
  lemma GpuIndicesIff(seg: Segment)
    ensures GpuIndices(seg).Some? <==> GoodIndices(seg)
  {
    hide IndexGroups, GoodGroups, GroupSize;
    IndexGroupsIff(seg.idxGroups, MAX_GPU_INDICES);
  }

  /** Then every number occurs as often as the groups name it. */
  lemma GpuIndicesCount(seg: Segment, k: nat)
    requires GpuIndices(seg).Some?
    ensures multiset(GpuIndices(seg).value)[k] == Total(seg.idxGroups, TimesNamed(k))
  {
    IndexGroupsCount(seg.idxGroups, MAX_GPU_INDICES, k);
  }

  // ---------------------------------------------------------------------------
  // Segments
  // ---------------------------------------------------------------------------

  lemma {:induction false} SlotsOnCount(node: Node, indices: seq<nat>, s: Slot)
    ensures multiset(SlotsOn(node, indices))[s] == if s.node == node then multiset(indices)[s.index] else 0
    decreases |indices|
  {
    if indices != [] {
      var k := |indices| - 1;
      assert indices == indices[..k] + [indices[k]];
      assert SlotsOn(node, indices) == SlotsOn(node, indices[..k]) + [Slot(node, indices[k])];
      SlotsOnCount(node, indices[..k], s);
    }
  }

  lemma {:induction false} CrossSlotsCount(nodes: seq<Node>, indices: seq<nat>, s: Slot)
    requires Nodelist.NoDuplicates(nodes)
    ensures multiset(CrossSlots(nodes, indices))[s] == if s.node in nodes then multiset(indices)[s.index] else 0
    decreases |nodes|
  {
    hide SlotsOn;
    if nodes != [] {
      SlotsOnCount(nodes[0], indices, s);
      CrossSlotsCount(nodes[1..], indices, s);
      CountConcat(SlotsOn(nodes[0], indices), CrossSlots(nodes[1..], indices), s);
      assert nodes[0] !in nodes[1..];
      assert s.node in nodes <==> s.node == nodes[0] || s.node in nodes[1..];
    }
  }

  lemma HostsAreDistinct(seg: Segment)
    ensures Nodelist.NoDuplicates(HostsOf(seg))
  {
    if !Nodelist.IsNullMarker(seg.nodes) && Nodelist.StrictExpand(seg.nodes).Some? {
      Nodelist.ExpandersAgree(seg.nodes);
    }
  }

  /** A segment may follow when the nodes `seen` are taken. */
  predicate Fits(seg: Segment, expected: set<Node>, seen: set<Node>) {
    Usable(seg) && AsSet(HostsOf(seg)) <= expected && AsSet(HostsOf(seg)) !! seen
  }

  ghost predicate GoodTail(segments: seq<Segment>, expected: set<Node>, seen: set<Node>) {
    (forall i :: 0 <= i < |segments| ==> Fits(segments[i], expected, seen)) && Apart(segments)
  }

  function SeenBy(segments: seq<Segment>): set<Node> {
    if segments == [] then {} else AsSet(HostsOf(segments[0])) + SeenBy(segments[1..])
  }

  lemma ApartStep(segments: seq<Segment>)
    requires segments != []
    ensures Apart(segments) <==> Apart(segments[1..]) && forall n :: n in HostsOf(segments[0]) ==> !HasHost(segments[1..], n)
  {
    hide HostsOf;
    var rest := segments[1..];
    if Apart(segments) {
      forall i, j, n | 0 <= i < j < |rest| && n in HostsOf(rest[i]) ensures n !in HostsOf(rest[j]) {
        assert rest[i] == segments[i + 1] && rest[j] == segments[j + 1];
      }
      forall n | n in HostsOf(segments[0]) ensures !HasHost(rest, n) {
        forall j | 0 <= j < |rest| ensures n !in HostsOf(rest[j]) {
          assert rest[j] == segments[j + 1];
        }
      }
    }
    if Apart(rest) && forall n :: n in HostsOf(segments[0]) ==> !HasHost(rest, n) {
      forall i, j, n | 0 <= i < j < |segments| && n in HostsOf(segments[i]) ensures n !in HostsOf(segments[j]) {
        assert segments[j] == rest[j - 1];
        if i > 0 {
          assert segments[i] == rest[i - 1];
        } else {
          assert !HasHost(rest, n);
        }
      }
    }
  }

  lemma FitsLater(segments: seq<Segment>, expected: set<Node>, seen: set<Node>, first: seq<Node>)
    requires forall i :: 0 <= i < |segments| ==> Fits(segments[i], expected, seen)
    ensures (forall i :: 0 <= i < |segments| ==> Fits(segments[i], expected, seen + AsSet(first)))
      <==> forall n :: n in first ==> !HasHost(segments, n)
  {
    hide HostsOf, Usable;
    var later := seen + AsSet(first);
    if forall n :: n in first ==> !HasHost(segments, n) {
      forall i | 0 <= i < |segments| ensures Fits(segments[i], expected, later) {
        assert Fits(segments[i], expected, seen);
        forall n | n in AsSet(HostsOf(segments[i])) ensures n !in later {
          assert HasHost(segments, n);
        }
      }
    }
    if forall i :: 0 <= i < |segments| ==> Fits(segments[i], expected, later) {
      forall n | n in first ensures !HasHost(segments, n) {
        forall i | 0 <= i < |segments| ensures n !in HostsOf(segments[i]) {
          assert Fits(segments[i], expected, later) && n in later;
          assert n in AsSet(HostsOf(segments[i])) <==> n in HostsOf(segments[i]);
        }
      }
    }
  }

  lemma GoodTailStep(segments: seq<Segment>, expected: set<Node>, seen: set<Node>)
    requires segments != []
    ensures GoodTail(segments, expected, seen) <==>
      Fits(segments[0], expected, seen) && GoodTail(segments[1..], expected, seen + AsSet(HostsOf(segments[0])))
  {
    hide Fits, Apart, HasHost, HostsOf, AsSet;
    var rest, first := segments[1..], HostsOf(segments[0]);
    ApartStep(segments);
    if GoodTail(segments, expected, seen) {
      forall i | 0 <= i < |rest| ensures Fits(rest[i], expected, seen) {
        assert rest[i] == segments[i + 1];
      }
      FitsLater(rest, expected, seen, first);
    }
    if Fits(segments[0], expected, seen) && GoodTail(rest, expected, seen + AsSet(first)) {
      forall i | 0 <= i < |rest| ensures Fits(rest[i], expected, seen) {
        FitsEarlier(rest[i], expected, seen, first);
      }
      FitsLater(rest, expected, seen, first);
      forall i | 0 <= i < |segments| ensures Fits(segments[i], expected, seen) {
        assert i > 0 ==> segments[i] == rest[i - 1];
      }
    }
  }

  lemma FitsEarlier(seg: Segment, expected: set<Node>, seen: set<Node>, first: seq<Node>)
    requires Fits(seg, expected, seen + AsSet(first))
    ensures Fits(seg, expected, seen)
  {
  }

  lemma FitsIs(seg: Segment, expected: set<Node>, seen: set<Node>)
    ensures var nodes, indices := Nodelist.StrictExpand(seg.nodes), GpuIndices(seg);
      && (nodes.Some? ==> nodes.value == HostsOf(seg))
      && (Fits(seg, expected, seen) <==>
           nodes.Some? && indices.Some? && AsSet(nodes.value) <= expected && AsSet(nodes.value) * seen == {})
  {
    hide Nodelist.StrictExpand, GoodIndices, GpuIndices;
    GpuIndicesIff(seg);
    var hosts := AsSet(HostsOf(seg));
    if hosts * seen == {} {
      forall n | n in hosts ensures n !in seen {
        assert n !in hosts * seen;
      }
    }
  }

  ghost predicate FirstOf(r: Option<(seq<Slot>, set<Node>)>, seg: Segment, rest: Option<(seq<Slot>, set<Node>)>) {
    r.Some? && rest.Some? && GpuIndices(seg).Some?
    && r.value == (CrossSlots(HostsOf(seg), GpuIndices(seg).value) + rest.value.0, rest.value.1)
  }

  lemma ClaimsStep(segments: seq<Segment>, expected: set<Node>, seen: set<Node>)
    requires segments != []
    ensures var seg, r := segments[0], SegmentClaims(segments, expected, seen);
      var rest := SegmentClaims(segments[1..], expected, seen + AsSet(HostsOf(seg)));
      && (r.Some? <==> Fits(seg, expected, seen) && rest.Some?)
      && (r.Some? ==> FirstOf(r, seg, rest))
  {
    hide Nodelist.StrictExpand, GpuIndices, CrossSlots, Fits, AsSet, HostsOf;
    FitsIs(segments[0], expected, seen);
  }

  lemma {:induction false} SegmentClaimsIff(segments: seq<Segment>, expected: set<Node>, seen: set<Node>)
    ensures var r := SegmentClaims(segments, expected, seen);
      && (r.Some? <==> GoodTail(segments, expected, seen))
      && (r.Some? ==> r.value.1 == seen + SeenBy(segments))
    decreases |segments|
  {
    hide Fits, GoodTail, HostsOf, AsSet, CrossSlots, GpuIndices;
    if segments == [] {
      NoSegments(expected, seen);
    } else {
      var taken := seen + AsSet(HostsOf(segments[0]));
      GoodTailStep(segments, expected, seen);
      ClaimsStep(segments, expected, seen);
      hide SegmentClaims;
      SegmentClaimsIff(segments[1..], expected, taken);
      assert seen + (AsSet(HostsOf(segments[0])) + SeenBy(segments[1..])) == taken + SeenBy(segments[1..]);
    }
  }

  lemma NoSegments(expected: set<Node>, seen: set<Node>)
    ensures GoodTail([], expected, seen)
  {
  }

  lemma {:induction false} SegmentClaimsCount(segments: seq<Segment>, expected: set<Node>, seen: set<Node>, s: Slot)
    requires SegmentClaims(segments, expected, seen).Some?
    ensures multiset(SegmentClaims(segments, expected, seen).value.0)[s] == Total(segments, TimesClaimed(s))
    decreases |segments|
  {
    hide Fits, HostsOf, AsSet, CrossSlots, GpuIndices, TimesNamed;
    if segments != [] {
      var seg := segments[0];
      var taken := seen + AsSet(HostsOf(seg));
      ClaimsStep(segments, expected, seen);
      SegmentClaimsCount(segments[1..], expected, taken, s);
      HostsAreDistinct(seg);
      GpuIndicesCount(seg, s.index);
      CrossSlotsCount(HostsOf(seg), GpuIndices(seg).value, s);
      CountConcat(CrossSlots(HostsOf(seg), GpuIndices(seg).value), SegmentClaims(segments[1..], expected, taken).value.0, s);
    }
  }

  lemma {:induction false} SeenByIs(segments: seq<Segment>, n: Node)
    ensures n in SeenBy(segments) <==> HasHost(segments, n)
    decreases |segments|
  {
    hide HostsOf;
    if segments != [] {
      SeenByIs(segments[1..], n);
      if i :| 0 <= i < |segments[1..]| && n in HostsOf(segments[1..][i]) {
        assert segments[1..][i] == segments[i + 1];
      }
      if i :| 0 <= i < |segments| && n in HostsOf(segments[i]) {
        assert i > 0 ==> segments[1..][i - 1] == segments[i];
      }
    }
  }

  lemma GoodSegmentsAre(segments: seq<Segment>, nodes: seq<Node>)
    ensures GoodSegments(segments, nodes) <==> GoodTail(segments, AsSet(nodes), {}) && SeenBy(segments) == AsSet(nodes)
  {
    hide HostsOf, SeenBy, Usable, Apart;
    forall n ensures n in SeenBy(segments) <==> HasHost(segments, n) {
      SeenByIs(segments, n);
    }
    if GoodSegments(segments, nodes) {
      forall i | 0 <= i < |segments| ensures Fits(segments[i], AsSet(nodes), {}) {
        forall n | n in AsSet(HostsOf(segments[i])) ensures n in AsSet(nodes) {
          assert HasHost(segments, n);
        }
      }
    }
  }

  /** A line's segments are accepted exactly when they are usable, disjoint and
      cover the placement; then a slot is claimed once for every time a segment
      on its node names its number. */
  lemma GpuClaimsAre(l: Line, nodes: seq<Node>, s: Slot)
    ensures GpuClaims(l, nodes).Some? <==> l.segments == [] || GoodSegments(l.segments, nodes)
    ensures GpuClaims(l, nodes).Some? ==> multiset(GpuClaims(l, nodes).value)[s] == Total(l.segments, TimesClaimed(s))
  {
    hide SegmentClaims, TimesClaimed, GoodTail, SeenBy, GoodSegments;
    var expected := AsSet(nodes);
    SegmentClaimsIff(l.segments, expected, {});
    assert {} + SeenBy(l.segments) == SeenBy(l.segments);
    GoodSegmentsAre(l.segments, nodes);
    if SegmentClaims(l.segments, expected, {}).Some? {
      SegmentClaimsCount(l.segments, expected, {}, s);
    }
  }

  // ---------------------------------------------------------------------------
  // Lines and the parse
  // ---------------------------------------------------------------------------

  /** How often a line's text claims a slot, if it may claim any. */
  ghost function TextClaims(inp: Input, s: Slot): Line -> nat {
    (l: Line) =>
      var v := Judge(inp, l);
      if v.Accepted? && v.anchor.state in {"RUNNING", "COMPLETING"} && GoodSegments(l.segments, v.anchor.nodes)
      then Total(l.segments, TimesClaimed(s)) else 0
  }

  lemma TextClaimsAre(inp: Input, s: Slot, l: Line)
    ensures SlotClaims(inp, s)(l) == TextClaims(inp, s)(l)
  {
    hide Judge, GpuClaims, GoodSegments, TimesClaimed;
    if Judge(inp, l).Accepted? {
      GpuClaimsAre(l, Judge(inp, l).anchor.nodes, s);
    }
  }

  lemma SlotCountIsText(inp: Input, s: Slot)
    ensures SlotCount(inp, s) == Total(inp.lines, TextClaims(inp, s))
  {
    hide TextClaims, SlotClaims;
    forall l | l in inp.lines ensures SlotClaims(inp, s)(l) == TextClaims(inp, s)(l) {
      TextClaimsAre(inp, s, l);
    }
    TotalSame(inp.lines, SlotClaims(inp, s), TextClaims(inp, s));
  }

  /** A slot is allocated exactly when the texts of all accepted lines of active
      jobs claim it once in all, and then to the job whose line it is. */
  lemma AllocatedByText(inp: Input, p: Parsed, s: Slot)
    requires IsParse(inp, p)
    ensures s in p.alloc <==> Total(inp.lines, TextClaims(inp, s)) == 1
    ensures forall l :: l in inp.lines && TextClaims(inp, s)(l) == 1 && s in p.alloc ==>
      l.claimed != [] && p.alloc[s] == l.Ids()[0]
  {
    hide Judge, GoodSegments, TimesClaimed, Identities, RejectedFor, ClaimsOf;
    forall l | l in inp.lines ensures SlotClaims(inp, s)(l) == TextClaims(inp, s)(l) {
      TextClaimsAre(inp, s, l);
    }
    TotalSame(inp.lines, SlotClaims(inp, s), TextClaims(inp, s));
    forall l | l in inp.lines && TextClaims(inp, s)(l) == 1 && s in p.alloc
      ensures l.claimed != [] && p.alloc[s] == l.Ids()[0]
    {
      assert ClaimsSlot(inp, l, s);
    }
  }

  /** So a line that is the only one to claim a card gets it, and every other
      card that its text alone names once. */
  lemma SoleClaimIsGranted(inp: Input, p: Parsed, i: nat, s: Slot)
    requires IsParse(inp, p) && i < |inp.lines| && TextClaims(inp, s)(inp.lines[i]) == 1
    requires forall k :: 0 <= k < |inp.lines| && k != i ==> TextClaims(inp, s)(inp.lines[k]) == 0
    ensures s in p.alloc && inp.lines[i].claimed != [] && p.alloc[s] == inp.lines[i].Ids()[0]
  {
    hide Judge, GoodSegments, TimesClaimed, IsParse;
    AllocatedByText(inp, p, s);
    var rest := inp.lines[..i] + inp.lines[i + 1..];
    TotalTakeOut(inp.lines, i, TextClaims(inp, s));
    NobodyElse(rest, TextClaims(inp, s));
    assert inp.lines[i] in inp.lines;
  }

  lemma {:induction false} NobodyElse(lines: seq<Line>, f: Line -> nat)
    requires forall k :: 0 <= k < |lines| ==> f(lines[k]) == 0
    ensures Total(lines, f) == 0
  {
    if lines != [] {
      NobodyElse(lines[1..], f);
    }
  }
}
