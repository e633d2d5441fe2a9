/**
Which legacy lines are believed, read off the input itself: the rosters, the other
lines and the line's own fields; and what the parser then says of a job.
*/
module LegacyLines {
  import opened Common
  import opened Legacy
  import opened LegacyClaims
  import Nodelist

  // ---------------------------------------------------------------------------
  // Reading a line
  // ---------------------------------------------------------------------------

  /** No other line names any of the ids that line `k` claims. */
  ghost predicate Alone(inp: Input, k: nat)
    requires k < |inp.lines|
  {
    forall i, j :: 0 <= i < |inp.lines| && i != k && j in inp.lines[k].claimed ==> j !in inp.lines[i].claimed
  }

  /** Both rosters know the job, by this anchor. */
  ghost predicate Steady(inp: Input, j: Jid, a: Anchor) {
    j in inp.before && inp.before[j] == a && j in inp.after && inp.after[j] == a
  }

  /** One of the ids is steady with this anchor, and none with another. */
  ghost predicate Vouches(inp: Input, ids: seq<Jid>, a: Anchor) {
    (exists j :: j in ids && Steady(inp, j, a)) && forall j, b :: j in ids && Steady(inp, j, b) ==> b == a
  }

  /** The line's fields are there, clean, and say what the anchor says. */
  ghost predicate Spells(l: Line, a: Anchor) {
    && !(l.tooLong || l.controlChars || l.repeatedField)
    && l.claimed != [] && l.rawJobId == Some(l.claimed[0])
    && l.owner == Some((a.user, a.uid)) && l.state == Some(a.state)
    && (exists text :: l.nodeList == Some(text) && Nodelist.StrictExpand(text) == Some(a.nodes))
    && None !in {l.workdir, l.stdout, l.stderr}
  }

  ghost predicate Believed(inp: Input, k: nat, a: Anchor)
    requires k < |inp.lines|
  {
    Alone(inp, k) && Vouches(inp, inp.lines[k].claimed, a) && Spells(inp.lines[k], a)
  }

  /** The line names a job of a roster; others are not looked at. */
  ghost predicate Concerns(inp: Input, l: Line) {
    exists j :: j in l.claimed && (j in inp.before || j in inp.after)
  }

  // ---------------------------------------------------------------------------
  // Believed lines are the accepted ones
  // ---------------------------------------------------------------------------

  lemma {:induction false} FirstOfDedup(s: seq<Jid>)
    ensures s != [] ==> Dedup(s) != [] && Dedup(s)[0] == s[0]
    decreases |s|
  {
    if |s| > 1 {
      FirstOfDedup(s[..|s| - 1]);
    }
  }

  lemma ClaimedOnce(lines: seq<Line>, k: nat, j: Jid)
    requires k < |lines| && j in lines[k].claimed
    ensures ClaimCount(lines, j) == 1 <==> forall i :: 0 <= i < |lines| && i != k ==> j !in lines[i].claimed
  {
    var rest := lines[..k] + lines[k + 1..];
    TotalTakeOut(lines, k, Claiming(j));
    assert forall i :: 0 <= i < |lines| && i != k ==> lines[i] == rest[if i < k then i else i - 1];
    if i :| 0 <= i < |lines| && i != k && j in lines[i].claimed {
      TotalHas(rest, if i < k then i else i - 1, Claiming(j));
    } else {
      forall m | 0 <= m < |rest| ensures Claiming(j)(rest[m]) == 0 {
        assert rest[m] == lines[if m < k then m else m + 1];
      }
      NobodyElse(rest, Claiming(j));
    }
  }

  lemma UniqueIsAlone(inp: Input, k: nat)
    requires k < |inp.lines|
    ensures Unique(inp, inp.lines[k]) <==> Alone(inp, k)
  {
    hide ClaimCount;
    forall j | j in inp.lines[k].claimed
      ensures ClaimCount(inp.lines, j) == 1 <==> forall i :: 0 <= i < |inp.lines| && i != k ==> j !in inp.lines[i].claimed
    {
      ClaimedOnce(inp.lines, k, j);
    }
  }

  lemma {:induction false} AnchorsAre(inp: Input, ids: seq<Jid>, a: Anchor)
    ensures a in StableAnchors(inp, ids) <==> exists j :: j in ids && Steady(inp, j, a)
  {
    if ids != [] {
      var first := if Stable(inp, ids[0]) then [inp.before[ids[0]]] else [];
      AnchorsAre(inp, ids[1..], a);
      assert StableAnchors(inp, ids) == first + StableAnchors(inp, ids[1..]);
      assert a in first <==> Steady(inp, ids[0], a);
      assert forall j :: j in ids <==> j == ids[0] || j in ids[1..];
    }
  }

  lemma AnchorIs(inp: Input, l: Line, a: Anchor)
    ensures AnchorOf(inp, l) == Some(a) <==> Vouches(inp, l.claimed, a)
  {
    hide StableAnchors, Steady;
    var anchors := StableAnchors(inp, l.Ids());
    forall b ensures b in anchors <==> exists j :: j in l.claimed && Steady(inp, j, b) {
      AnchorsAre(inp, l.Ids(), b);
    }
    SomeIffOnly(anchors, a);
    if Vouches(inp, l.claimed, a) {
      forall b | b in anchors ensures b == a {
        assert exists j :: j in l.claimed && Steady(inp, j, b);
      }
    }
    if AnchorOf(inp, l) == Some(a) {
      forall j, b | j in l.claimed && Steady(inp, j, b) ensures b == a {
        assert b in anchors;
      }
    }
  }

  lemma SomeIffOnly(anchors: seq<Anchor>, a: Anchor)
    ensures anchors != [] && anchors[0] == a && (forall i :: 0 <= i < |anchors| ==> anchors[i] == anchors[0])
       <==> a in anchors && forall b :: b in anchors ==> b == a
  {
    assert forall i :: 0 <= i < |anchors| ==> anchors[i] in anchors;
    assert anchors != [] ==> anchors[0] in anchors;
  }

  lemma SpellsIs(l: Line, a: Anchor)
    ensures Agrees(l, a) <==> Spells(l, a)
  {
    hide Nodelist.StrictExpand;
    FirstOfDedup(l.claimed);
  }

  /** A line is accepted, with an anchor, exactly when it is believed, and ignored
      exactly when it concerns no job of a roster. */
  lemma BelievedIff(inp: Input, k: nat, a: Anchor)
    requires k < |inp.lines|
    ensures Judge(inp, inp.lines[k]) == Accepted(a) <==> Believed(inp, k, a)
    ensures Judge(inp, inp.lines[k]) == Ignored <==> !Concerns(inp, inp.lines[k])
  {
    hide Agrees, AnchorOf, Unique, Alone, Spells;
    var l := inp.lines[k];
    UniqueIsAlone(inp, k);
    AnchorIs(inp, l, a);
    SpellsIs(l, a);
  }

  // ---------------------------------------------------------------------------
  // What the parser says of a job
  // ---------------------------------------------------------------------------

  ghost predicate Tells(inp: Input, k: nat, a: Anchor, j: Jid) {
    k < |inp.lines| && Believed(inp, k, a) && j in inp.lines[k].claimed
  }

  /** The log paths of a line: one file for both streams when the paths are equal. */
  ghost predicate LogsAre(spec: LogSpec, out: string, err: string) {
    && spec.out == out && spec.err == (if out == err then "" else err)
    && (spec.merged <==> out == err && out != "")
  }

  ghost predicate Described(p: Parsed, j: Jid, l: Line, a: Anchor) {
    && j in p.users && p.users[j] == a.user && j in p.uids && p.uids[j] == a.uid
    && j in p.details && p.details[j] == l.detail
    && j in p.logs && l.stdout.Some? && l.stderr.Some? && LogsAre(p.logs[j], l.stdout.value, l.stderr.value)
  }

  lemma BelievedSpells(inp: Input, k: nat, a: Anchor)
    requires k < |inp.lines| && Believed(inp, k, a)
    ensures inp.lines[k].stdout.Some? && inp.lines[k].stderr.Some?
  {
    hide Alone, Vouches;
    assert inp.lines[k].stdout in {inp.lines[k].workdir, inp.lines[k].stdout, inp.lines[k].stderr};
    assert inp.lines[k].stderr in {inp.lines[k].workdir, inp.lines[k].stdout, inp.lines[k].stderr};
  }

  /** What a believed line tells of a job it claims: its anchor, detail text and
      log paths. */
  lemma ToldIsKnown(inp: Input, p: Parsed, k: nat, a: Anchor, j: Jid)
    requires IsParse(inp, p) && Tells(inp, k, a, j)
    ensures Described(p, j, inp.lines[k], a)
  {
    hide Judge, Believed, Allocated, RejectedFor;
    BelievedIff(inp, k, a);
    BelievedSpells(inp, k, a);
    assert Keeps(inp, inp.lines[k], j);
    assert Recorded(inp, inp.lines[k], j, p);
  }

  lemma KnownIsTold(inp: Input, p: Parsed, j: Jid) returns (k: nat, a: Anchor)
    requires IsParse(inp, p) && j in p.users
    ensures Tells(inp, k, a, j)
  {
    hide Judge, Believed, Allocated, RejectedFor, Recorded;
    var l :| l in inp.lines && Keeps(inp, l, j);
    k :| 0 <= k < |inp.lines| && inp.lines[k] == l;
    a := Judge(inp, l).anchor;
    BelievedIff(inp, k, a);
  }

  /** The parser knows a job exactly when a believed line claims it, and then by
      that line's anchor, detail text and log paths. */
  lemma KnownIff(inp: Input, p: Parsed, j: Jid)
    requires IsParse(inp, p)
    ensures j in p.users <==> exists k: nat, a :: Tells(inp, k, a, j)
    ensures forall k: nat, a :: Tells(inp, k, a, j) ==> Described(p, j, inp.lines[k], a)
  {
    hide Judge, Tells, IsParse, LogsAre;
    if j in p.users {
      var k, a := KnownIsTold(inp, p, j);
    }
    forall k: nat, a | Tells(inp, k, a, j) ensures k < |inp.lines| && Described(p, j, inp.lines[k], a) {
      TellsIn(inp, k, a, j);
      ToldIsKnown(inp, p, k, a, j);
    }
  }

  lemma TellsIn(inp: Input, k: nat, a: Anchor, j: Jid)
    requires Tells(inp, k, a, j)
    ensures k < |inp.lines|
  {
  }

  /** Every card the line's text names is named by that text alone, once. */
  ghost predicate Uncontested(inp: Input, l: Line) {
    forall s :: TextClaims(inp, s)(l) > 0 ==> Total(inp.lines, TextClaims(inp, s)) == 1
  }

  /** A line to which there is no objection: believed, and, for a job that holds
      its cards, with usable segments whose cards no line names again. */
  ghost predicate Clear(inp: Input, k: nat, a: Anchor)
    requires k < |inp.lines|
  {
    var l := inp.lines[k];
    && Believed(inp, k, a)
    && (a.state in {"RUNNING", "COMPLETING"} ==> (l.segments == [] || GoodSegments(l.segments, a.nodes)) && Uncontested(inp, l))
  }

  lemma ContestedIs(inp: Input, l: Line)
    requires ClaimsOf(inp, l).Some?
    ensures Contested(inp, l) <==> !Uncontested(inp, l)
  {
    hide ClaimsOf, SlotCount, TextClaims, Judge;
    forall s ensures ClaimsSlot(inp, l, s) <==> TextClaims(inp, s)(l) > 0 {
      TextClaimsAre(inp, s, l);
    }
    forall s ensures SlotCount(inp, s) == Total(inp.lines, TextClaims(inp, s)) {
      SlotCountIsText(inp, s);
    }
  }

  lemma ClearIff(inp: Input, k: nat, a: Anchor)
    requires k < |inp.lines| && Believed(inp, k, a)
    ensures !Refused(inp, inp.lines[k]) && !Contested(inp, inp.lines[k]) <==> Clear(inp, k, a)
  {
    hide Judge, Believed, GpuClaims, GoodSegments, Uncontested, Contested;
    var l := inp.lines[k];
    BelievedIff(inp, k, a);
    GpuClaimsAre(l, a.nodes, Slot("", 0));
    if ClaimsOf(inp, l).Some? {
      ContestedIs(inp, l);
      if a.state !in {"RUNNING", "COMPLETING"} {
        NothingContested(inp, l);
      }
    }
  }

  lemma NothingContested(inp: Input, l: Line)
    requires ClaimsOf(inp, l) == Some([])
    ensures !Contested(inp, l)
  {
    hide ClaimsOf, SlotCount;
  }

  /** The parser rejects a job exactly when a line that claims it concerns a job
      of a roster and is objected to. */
  lemma RejectedIff(inp: Input, p: Parsed, j: Jid)
    requires IsParse(inp, p)
    ensures j in p.rejected <==> exists k :: 0 <= k < |inp.lines| && j in inp.lines[k].claimed
                                       && Concerns(inp, inp.lines[k]) && forall a :: !Clear(inp, k, a)
  {
    hide Judge, Identities, Allocated, Refused, Contested, Clear, Concerns;
    forall k | 0 <= k < |inp.lines|
      ensures Refused(inp, inp.lines[k]) || Contested(inp, inp.lines[k]) <==> Concerns(inp, inp.lines[k]) && forall a :: !Clear(inp, k, a)
    {
      ObjectedIff(inp, k);
    }
  }

  lemma ObjectedIff(inp: Input, k: nat)
    requires k < |inp.lines|
    ensures Refused(inp, inp.lines[k]) || Contested(inp, inp.lines[k])
       <==> Concerns(inp, inp.lines[k]) && forall a :: !Clear(inp, k, a)
  {
    hide Judge, Believed, Contested, Concerns, GpuClaims;
    var l := inp.lines[k];
    forall a ensures Judge(inp, l) == Accepted(a) <==> Believed(inp, k, a) {
      BelievedIff(inp, k, a);
    }
    BelievedIff(inp, k, Anchor("", 0, "", []));
    if Judge(inp, l).Accepted? {
      var b := Judge(inp, l).anchor;
      ClearIff(inp, k, b);
      assert forall a :: Clear(inp, k, a) ==> a == b;
    } else {
      NothingContested(inp, l);
    }
  }
}
