/**
What a nodelist means: a written list of patterns such as `gpu[01-03,7]-ib` is
read by both expanders as the hosts that its pieces spell out, zero padding and
order included.
*/
module NodelistText {
  import opened Common
  import opened Nodelist

  // ---------------------------------------------------------------------------
  // Numerals
  // ---------------------------------------------------------------------------

  function Pow10(k: nat): nat {
    if k == 0 then 1 else 10 * Pow10(k - 1)
  }

  /** The decimal numeral of `n` with at least `width` digits: filled up with
      zeros to that width, and without leading zeros beyond it. */
  ghost predicate Numeral(s: string, n: nat, width: nat) {
    AllDigits(s) && Int(s) == n && |s| >= width && (|s| > width ==> s[0] != '0')
  }

  lemma {:induction false} IntLead(c: char, s: string)
    requires IsDigit(c) && forall i :: 0 <= i < |s| ==> IsDigit(s[i])
    ensures Int([c] + s) == DigitValue(c) * Pow10(|s|) + Int(s)
    decreases |s|
  {
    var all := [c] + s;
    if s == [] {
      assert all[..0] == "" && Int(all[..0]) == 0;
    } else {
      var init := s[..|s| - 1];
      assert all[..|all| - 1] == [c] + init;
      IntLead(c, init);
      Distributes(DigitValue(c), Pow10(|init|), Int(init));
    }
  }

  lemma Distributes(d: nat, p: nat, n: nat)
    ensures 10 * (d * p + n) == d * (10 * p) + 10 * n
  {
  }

  lemma {:induction false} IntBelow(s: string)
    requires forall i :: 0 <= i < |s| ==> IsDigit(s[i])
    ensures Int(s) < Pow10(|s|)
  {
    if s != "" {
      IntBelow(s[..|s| - 1]);
    }
  }

  lemma IntAbove(s: string)
    requires AllDigits(s) && s[0] != '0'
    ensures Int(s) >= Pow10(|s| - 1)
  {
    assert s == [s[0]] + s[1..];
    IntLead(s[0], s[1..]);
    Times(DigitValue(s[0]), Pow10(|s| - 1));
  }

  lemma Times(d: nat, p: nat)
    requires d >= 1
    ensures d * p >= p
  {
  }

  lemma {:induction false} PowGrows(a: nat, b: nat)
    requires a <= b
    ensures Pow10(a) <= Pow10(b)
    decreases b
  {
    if a < b {
      PowGrows(a, b - 1);
    }
  }

  lemma {:induction false} SameLengthSameInt(s: string, t: string)
    requires |s| == |t| && (forall i :: 0 <= i < |s| ==> IsDigit(s[i])) && (forall i :: 0 <= i < |t| ==> IsDigit(t[i]))
    requires Int(s) == Int(t)
    ensures s == t
  {
    if s != "" {
      var k := |s| - 1;
      LastDigits(Int(s[..k]), DigitValue(s[k]), Int(t[..k]), DigitValue(t[k]));
      SameLengthSameInt(s[..k], t[..k]);
      assert s == s[..k] + [s[k]] && t == t[..k] + [t[k]];
    }
  }

  lemma LastDigits(a: nat, d: nat, b: nat, e: nat)
    requires 10 * a + d == 10 * b + e && d < 10 && e < 10
    ensures a == b && d == e
  {
  }

  /** There is only one such numeral. */
  lemma NumeralUnique(s: string, t: string, n: nat, width: nat)
    requires Numeral(s, n, width) && Numeral(t, n, width)
    ensures s == t
  {
    if |s| < |t| {
      ShorterIsSmaller(s, t);
    } else if |t| < |s| {
      ShorterIsSmaller(t, s);
    } else {
      SameLengthSameInt(s, t);
    }
  }

  lemma ShorterIsSmaller(s: string, t: string)
    requires AllDigits(s) && AllDigits(t) && |s| < |t| && t[0] != '0'
    ensures Int(s) < Int(t)
  {
    IntBelow(s);
    IntAbove(t);
    PowGrows(|s|, |t| - 1);
  }

  lemma {:induction false} ShowIsNumeral(n: nat)
    ensures Int(Show(n)) == n && (|Show(n)| > 1 ==> Show(n)[0] != '0')
  {
    var s := Show(n);
    if n < 10 {
      assert s[..0] == "" && Int(s[..0]) == 0;
    } else {
      ShowIsNumeral(n / 10);
      assert s[..|s| - 1] == Show(n / 10);
      if |Show(n / 10)| == 1 {
        assert Show(n / 10)[..0] == "" && Int(Show(n / 10)[..0]) == 0;
      }
    }
  }

  lemma {:induction false} ZFillIsNumeral(s: string, n: nat, width: nat)
    requires AllDigits(s) && Int(s) == n && width >= 1
    requires |s| > width ==> s[0] != '0'
    ensures Numeral(ZFill(s, width), n, width)
    decreases width - |s|
  {
    if |s| < width {
      IntLead('0', s);
      assert AllDigits("0" + s) && |"0" + s| == |s| + 1;
      ZFillIsNumeral("0" + s, n, width);
    }
  }

  ghost function NumeralOf(n: nat, width: nat): (s: string)
    requires width >= 1
    ensures Numeral(s, n, width)
  {
    ShowIsNumeral(n);
    ZFillIsNumeral(Show(n), n, width);
    var s :| Numeral(s, n, width);
    s
  }

  /** Value `i` of a range is the numeral of its first number plus `i`, at least
      as wide as the first was written. */
  lemma {:induction false} RangeAt(lo: nat, hi: nat, width: nat, i: nat)
    requires width >= 1 && lo + i <= hi
    ensures Range(lo, hi, width)[i] == NumeralOf(lo + i, width)
    decreases i
  {
    hide Numeral, ZFill, Show, NumeralOf;
    if i == 0 {
      ShowIsNumeral(lo);
      ZFillIsNumeral(Show(lo), lo, width);
      NumeralUnique(ZFill(Show(lo), width), NumeralOf(lo, width), lo, width);
    } else {
      RangeAt(lo + 1, hi, width, i - 1);
    }
  }

  ghost function Numerals(lo: nat, hi: nat, width: nat): (r: seq<string>)
    requires width >= 1 && lo <= hi
    ensures |r| == hi - lo + 1 && forall i :: 0 <= i < |r| ==> r[i] == NumeralOf(lo + i, width)
  {
    seq(hi - lo + 1, i requires 0 <= i < hi - lo + 1 => NumeralOf(lo + i, width))
  }

  lemma RangeSpells(lo: nat, hi: nat, width: nat)
    requires width >= 1 && lo <= hi
    ensures Range(lo, hi, width) == Numerals(lo, hi, width)
  {
    hide Range, NumeralOf, Numerals;
    forall i | 0 <= i < hi - lo + 1 ensures Range(lo, hi, width)[i] == Numerals(lo, hi, width)[i] {
      RangeAt(lo, hi, width, i);
    }
  }

  // ---------------------------------------------------------------------------
  // Written patterns and what they stand for
  // ---------------------------------------------------------------------------

  /** A number as it is written, or a range of numbers. */
  datatype Part = One(text: string) | Span(lo: string, hi: string) {
    predicate Proper() {
      match this
      case One(text) => AllDigits(text)
      case Span(lo, hi) => AllDigits(lo) && AllDigits(hi) && Int(lo) <= Int(hi)
    }

    function Written(): string {
      match this
      case One(text) => text
      case Span(lo, hi) => lo + "-" + hi
    }

    ghost function Values(): (r: seq<string>)
      requires Proper()
      ensures r != []
    {
      match this
      case One(text) => [text]
      case Span(lo, hi) => Numerals(Int(lo), Int(hi), |lo|)
    }

    /** The lenient expander passes an implausibly long range through as it is. */
    ghost function Shown(): (r: seq<string>)
      requires Proper()
      ensures r != []
    {
      if |Values()| > MAX_EXPANSION then [Written()] else Values()
    }
  }

  /** A piece of a name: plain characters, or a bracket with alternatives. */
  datatype Piece = Text(text: string) | Choice(parts: seq<Part>) {
    predicate Proper() {
      match this
      case Text(text) => AllNameChars(text)
      case Choice(parts) => parts != [] && forall i :: 0 <= i < |parts| ==> parts[i].Proper()
    }

    function Written(): string {
      match this
      case Text(text) => text
      case Choice(parts) => "[" + Join(WrittenParts(parts), ',') + "]"
    }
  }

  function WrittenParts(parts: seq<Part>): (r: seq<string>)
    ensures |r| == |parts|
  {
    if parts == [] then [] else [parts[0].Written()] + WrittenParts(parts[1..])
  }

  ghost function ValuesOf(parts: seq<Part>, loose: bool): (r: seq<string>)
    requires forall i :: 0 <= i < |parts| ==> parts[i].Proper()
    ensures parts != [] ==> r != []
  {
    if parts == [] then []
    else (if loose then parts[0].Shown() else parts[0].Values()) + ValuesOf(parts[1..], loose)
  }

  // ---------------------------------------------------------------------------
  // Parts
  // ---------------------------------------------------------------------------

  lemma FirstIndexIs(s: string, c: char, i: nat)
    requires i <= |s| && (i < |s| ==> s[i] == c) && forall k :: 0 <= k < i ==> s[k] != c
    ensures FirstIndex(s, c) == i
  {
  }

  lemma WrittenSpan(lo: string, hi: string)
    requires AllDigits(lo)
    ensures var s := Span(lo, hi).Written();
      FirstIndex(s, '-') == |lo| < |s| && s[..|lo|] == lo && s[|lo| + 1..] == hi
  {
    var s := lo + "-" + hi;
    assert s[|lo|] == '-';
    FirstIndexIs(s, '-', |lo|);
  }

  lemma WrittenOne(text: string)
    requires AllDigits(text)
    ensures FirstIndex(text, '-') == |text|
  {
    FirstIndexIs(text, '-', |text|);
  }

  /** Strict parsing takes exactly the values a part spells, if there is room. */
  lemma StrictPartIs(p: Part, room: int)
    requires p.Proper()
    ensures StrictPart(p.Written(), room) == if |p.Values()| <= room then Some(p.Values()) else None
  {
    hide Range, Numerals, Int;
    match p
    case One(text) =>
      WrittenOne(text);
      assert text[..|text|] == text;
    case Span(lo, hi) =>
      WrittenSpan(lo, hi);
      RangeSpells(Int(lo), Int(hi), |lo|);
  }

  /** A part begins and ends with a digit and has no comma or bracket in it. */
  lemma PartText(p: Part)
    requires p.Proper()
    ensures var s := p.Written();
      && s != "" && IsDigit(s[0]) && IsDigit(s[|s| - 1])
      && forall i :: 0 <= i < |s| ==> IsDigit(s[i]) || s[i] == '-'
  {
    hide Int;
  }

  lemma LenientPartIs(p: Part)
    requires p.Proper()
    ensures LenientPart(p.Written()) == p.Shown()
  {
    hide Range, Numerals, Int, Strip;
    PartText(p);
    StripTight(p.Written());
    match p
    case One(text) =>
      WrittenOne(text);
    case Span(lo, hi) =>
      WrittenSpan(lo, hi);
      RangeSpells(Int(lo), Int(hi), |lo|);
  }

  lemma {:induction false} SplitWithout(s: string, sep: char)
    requires forall i :: 0 <= i < |s| ==> s[i] != sep
    ensures SplitOn(s, sep) == [s]
  {
    if s != "" {
      SplitWithout(s[1..], sep);
      assert [s[0]] + s[1..] == s;
    }
  }

  lemma {:induction false} SplitAfter(s: string, sep: char, rest: string)
    requires forall i :: 0 <= i < |s| ==> s[i] != sep
    ensures SplitOn(s + [sep] + rest, sep) == [s] + SplitOn(rest, sep)
    decreases |s|
  {
    var all := s + [sep] + rest;
    if s == "" {
      assert all[1..] == rest;
    } else {
      assert all[1..] == s[1..] + [sep] + rest;
      SplitAfter(s[1..], sep, rest);
      var more := SplitOn(all[1..], sep);
      assert more[0] == s[1..] && more[1..] == SplitOn(rest, sep);
      assert [s[0]] + s[1..] == s;
    }
  }

  /** Splitting undoes joining for parts without the separator. */
  lemma {:induction false} SplitJoin(parts: seq<string>, sep: char)
    requires parts != [] && forall i, k :: 0 <= i < |parts| && 0 <= k < |parts[i]| ==> parts[i][k] != sep
    ensures SplitOn(Join(parts, sep), sep) == parts
    decreases |parts|
  {
    if |parts| == 1 {
      SplitWithout(parts[0], sep);
    } else {
      SplitJoin(parts[1..], sep);
      SplitAfter(parts[0], sep, Join(parts[1..], sep));
      assert parts == [parts[0]] + parts[1..];
    }
  }

  lemma {:induction false} WrittenAt(parts: seq<Part>, i: nat)
    requires i < |parts|
    ensures WrittenParts(parts)[i] == parts[i].Written()
  {
    if i > 0 {
      WrittenAt(parts[1..], i - 1);
    }
  }

  lemma SplitParts(parts: seq<Part>)
    requires parts != [] && forall i :: 0 <= i < |parts| ==> parts[i].Proper()
    ensures SplitOn(Join(WrittenParts(parts), ','), ',') == WrittenParts(parts)
  {
    hide SplitOn, Join, WrittenParts, Part.Written;
    var ws := WrittenParts(parts);
    forall i, k | 0 <= i < |ws| && 0 <= k < |ws[i]| ensures ws[i][k] != ',' {
      WrittenAt(parts, i);
      PartText(parts[i]);
    }
    SplitJoin(ws, ',');
  }

  lemma {:induction false} StrictPartsAre(parts: seq<Part>, room: int)
    requires forall i :: 0 <= i < |parts| ==> parts[i].Proper()
    ensures StrictParts(WrittenParts(parts), room) ==
      if parts == [] || |ValuesOf(parts, false)| <= room then Some(ValuesOf(parts, false)) else None
    decreases |parts|
  {
    hide StrictPart, Part.Written, Part.Values, Part.Proper;
    if parts != [] {
      var ws := WrittenParts(parts);
      assert ws[0] == parts[0].Written() && ws[1..] == WrittenParts(parts[1..]);
      StrictPartIs(parts[0], room);
      StrictPartsAre(parts[1..], room - |parts[0].Values()|);
    }
  }

  lemma {:induction false} LenientPartsAre(parts: seq<Part>)
    requires forall i :: 0 <= i < |parts| ==> parts[i].Proper()
    ensures LenientParts(WrittenParts(parts)) == ValuesOf(parts, true)
    decreases |parts|
  {
    hide LenientPart, Part.Written, Part.Shown, Part.Proper;
    if parts != [] {
      var ws := WrittenParts(parts);
      assert ws[0] == parts[0].Written() && ws[1..] == WrittenParts(parts[1..]);
      LenientPartIs(parts[0]);
      LenientPartsAre(parts[1..]);
    }
  }

  // ---------------------------------------------------------------------------
  // Names
  // ---------------------------------------------------------------------------

  /** Pieces in the order written; two plain texts are never neighbours. */
  predicate ProperName(pieces: seq<Piece>) {
    && (forall i :: 0 <= i < |pieces| ==> pieces[i].Proper())
    && (forall i :: 0 < i < |pieces| ==> !(pieces[i - 1].Text? && pieces[i].Text?))
  }

  function WrittenName(pieces: seq<Piece>): string {
    if pieces == [] then "" else pieces[0].Written() + WrittenName(pieces[1..])
  }

  function TokenOf(p: Piece): Token {
    match p
    case Text(text) => Literal(text)
    case Choice(parts) => Bracket(Join(WrittenParts(parts), ','))
  }

  /** The matches of the pieces, one after the other from `at` on. */
  function MatchesOf(pieces: seq<Piece>, at: nat): seq<Match> {
    if pieces == [] then []
    else
      var next := at + |pieces[0].Written()|;
      [Match(at, next, TokenOf(pieces[0]))] + MatchesOf(pieces[1..], next)
  }

  lemma LiteralEndIs(name: string, i: nat, j: nat)
    requires i <= j <= |name| && (forall k :: i <= k < j ==> name[k] != '[' && name[k] != ']')
    requires j == |name| || name[j] == '['
    ensures LiteralEnd(name, i) == j
    decreases j - i
  {
    if i < j {
      LiteralEndIs(name, i + 1, j);
    }
  }

  lemma ClosingBracketIs(name: string, i: nat, j: nat)
    requires i <= j < |name| && name[j] == ']' && forall k :: i <= k < j ==> name[k] != ']'
    ensures ClosingBracket(name, i) == j
    decreases j - i
  {
    if i < j {
      ClosingBracketIs(name, i + 1, j);
    }
  }

  /** The text between the brackets holds digits, dashes and commas only. */
  predicate Inner(c: char) {
    IsDigit(c) || c == '-' || c == ','
  }

  predicate AllInner(s: string) {
    forall k :: 0 <= k < |s| ==> Inner(s[k])
  }

  lemma {:induction false} JoinInner(parts: seq<Part>)
    requires forall i :: 0 <= i < |parts| ==> parts[i].Proper()
    ensures AllInner(Join(WrittenParts(parts), ','))
    decreases |parts|
  {
    hide Part.Written, Part.Proper;
    if parts != [] {
      var ws := WrittenParts(parts);
      assert ws[0] == parts[0].Written() && ws[1..] == WrittenParts(parts[1..]);
      PartText(parts[0]);
      assert AllInner(ws[0]) && AllInner([',']);
      JoinInner(parts[1..]);
      if |parts| > 1 {
        InnerConcat(ws[0] + [','], Join(ws[1..], ','));
      }
    }
  }

  lemma InnerConcat(a: string, b: string)
    requires AllInner(a) && AllInner(b)
    ensures AllInner(a + b)
  {
  }

  lemma {:induction false} MatchesAre(pre: string, pieces: seq<Piece>)
    requires ProperName(pieces)
    ensures Matches(pre + WrittenName(pieces), |pre|) == MatchesOf(pieces, |pre|)
    decreases |pieces|
  {
    hide Matches, Piece.Written, Piece.Proper, TokenOf;
    if pieces == [] {
      assert pre + "" == pre;
      NoMatches(pre);
    } else {
      var p, rest := pieces[0], WrittenName(pieces[1..]);
      if p.Text? && pieces[1..] != [] {
        assert pieces[1..][0] == pieces[1];
        ChoiceOpens(pieces[1]);
      }
      PieceMatches(pre, p, rest);
      MatchesAre(pre + p.Written(), pieces[1..]);
      assert pre + (p.Written() + rest) == pre + p.Written() + rest;
    }
  }

  /** The text from `i` to `j` is one match. */
  ghost predicate OneMatchAt(name: string, i: nat, j: nat, token: Token) {
    i <= j <= |name| && Matches(name, i) == [Match(i, j, token)] + Matches(name, j)
  }

  lemma PieceMatches(pre: string, p: Piece, rest: string)
    requires p.Proper() && (p.Text? ==> rest == "" || rest[0] == '[')
    ensures OneMatchAt(pre + (p.Written() + rest), |pre|, |pre| + |p.Written()|, TokenOf(p))
  {
    hide OneMatchAt, Join, WrittenParts, Part.Proper;
    match p
    case Text(text) => TextMatches(pre, text, rest);
    case Choice(parts) => ChoiceMatches(pre, parts, rest);
  }

  lemma NoMatches(name: string)
    ensures Matches(name, |name|) == []
  {
  }

  lemma ChoiceOpens(p: Piece)
    requires p.Choice?
    ensures p.Written() != "" && p.Written()[0] == '['
  {
  }

  lemma TextMatches(pre: string, text: string, rest: string)
    requires AllNameChars(text) && (rest == "" || rest[0] == '[')
    ensures OneMatchAt(pre + (text + rest), |pre|, |pre| + |text|, Literal(text))
  {
    var name, i, j := pre + (text + rest), |pre|, |pre| + |text|;
    forall k | i <= k < j ensures name[k] != '[' && name[k] != ']' {
      assert name[k] == text[k - i] && IsNameChar(text[k - i]);
    }
    LiteralEndIs(name, i + 1, j);
    assert name[i..j] == text;
  }

  lemma ChoiceMatches(pre: string, parts: seq<Part>, rest: string)
    requires forall i :: 0 <= i < |parts| ==> parts[i].Proper()
    ensures var w := Choice(parts).Written();
      OneMatchAt(pre + (w + rest), |pre|, |pre| + |w|, TokenOf(Choice(parts)))
  {
    hide Join, WrittenParts, OneMatchAt;
    var spec := Join(WrittenParts(parts), ',');
    JoinInner(parts);
    BracketMatches(pre, spec, rest);
    assert Choice(parts).Written() == "[" + spec + "]";
  }

  lemma BracketMatches(pre: string, spec: string, rest: string)
    requires AllInner(spec)
    ensures OneMatchAt(pre + ("[" + spec + "]" + rest), |pre|, |pre| + 2 + |spec|, Bracket(spec))
  {
    var name, i, j := pre + ("[" + spec + "]" + rest), |pre|, |pre| + 1 + |spec|;
    forall k | i < k < j ensures name[k] != ']' {
      assert name[k] == spec[k - i - 1] && Inner(spec[k - i - 1]);
    }
    assert name[i] == '[' && name[j] == ']';
    ClosingBracketIs(name, i + 1, j);
    assert name[i + 1..j] == spec;
  }

  ghost function GroupOf(p: Piece, loose: bool): (g: seq<string>)
    requires p.Proper()
    ensures g != []
  {
    match p
    case Text(text) => [text]
    case Choice(parts) => ValuesOf(parts, loose)
  }

  ghost function GroupsOf(pieces: seq<Piece>, loose: bool): (gs: seq<seq<string>>)
    requires forall i :: 0 <= i < |pieces| ==> pieces[i].Proper()
    ensures |gs| == |pieces| && forall g :: g in gs ==> g != []
  {
    if pieces == [] then [] else [GroupOf(pieces[0], loose)] + GroupsOf(pieces[1..], loose)
  }

  lemma StrictTokenIs(p: Piece)
    requires p.Proper()
    ensures StrictToken(TokenOf(p)) ==
      if p.Text? || |GroupOf(p, false)| <= LEGACY_MAX_NODES then Some(GroupOf(p, false)) else None
  {
    hide SplitOn, Join, WrittenParts, StrictParts, ValuesOf;
    if p.Choice? {
      SplitParts(p.parts);
      StrictPartsAre(p.parts, LEGACY_MAX_NODES);
    }
  }

  lemma LenientTokenIs(p: Piece)
    requires p.Proper()
    ensures LenientToken(TokenOf(p)) == GroupOf(p, true)
  {
    hide SplitOn, Join, WrittenParts, LenientParts, ValuesOf;
    if p.Choice? {
      SplitParts(p.parts);
      LenientPartsAre(p.parts);
    }
  }

  /** No group is too large for strict expansion on its own. */
  ghost predicate Bounded(groups: seq<seq<string>>) {
    forall i :: 0 <= i < |groups| ==> |groups[i]| <= LEGACY_MAX_NODES
  }

  lemma StrictGroupsStep(pieces: seq<Piece>, at: nat, end: nat)
    requires pieces != []
    ensures StrictGroups(MatchesOf(pieces, at), at, end) ==
      var vs, next := StrictToken(TokenOf(pieces[0])), at + |pieces[0].Written()|;
      if vs.None? then None else Prepend([vs.value], StrictGroups(MatchesOf(pieces[1..], next), next, end))
  {
    hide StrictToken, TokenOf, Piece.Written;
    var next := at + |pieces[0].Written()|;
    assert MatchesOf(pieces, at)[1..] == MatchesOf(pieces[1..], next);
  }

  lemma BoundedStep(gs: seq<seq<string>>)
    requires gs != []
    ensures Bounded(gs) <==> |gs[0]| <= LEGACY_MAX_NODES && Bounded(gs[1..])
  {
    assert forall i :: 0 < i < |gs| ==> gs[i] == gs[1..][i - 1];
  }

  lemma NothingIsBounded()
    ensures Bounded([])
  {
  }

  lemma {:induction false} StrictGroupsAre(pieces: seq<Piece>, at: nat)
    requires forall i :: 0 <= i < |pieces| ==> pieces[i].Proper()
    ensures StrictGroups(MatchesOf(pieces, at), at, at + |WrittenName(pieces)|) ==
      if Bounded(GroupsOf(pieces, false)) then Some(GroupsOf(pieces, false)) else None
    decreases |pieces|
  {
    hide StrictToken, TokenOf, GroupOf, Piece.Written, Piece.Proper, Bounded;
    if pieces == [] {
      NothingIsBounded();
    } else {
      hide StrictGroups, MatchesOf;
      var next, gs := at + |pieces[0].Written()|, GroupsOf(pieces, false);
      assert gs == [GroupOf(pieces[0], false)] + GroupsOf(pieces[1..], false);
      BoundedStep(gs);
      StrictGroupsStep(pieces, at, at + |WrittenName(pieces)|);
      StrictTokenIs(pieces[0]);
      if pieces[0].Text? {
        TextIsOne(pieces[0]);
      }
      StrictGroupsAre(pieces[1..], next);
      assert gs[1..] == GroupsOf(pieces[1..], false);
    }
  }

  lemma TextIsOne(p: Piece)
    requires p.Proper() && p.Text?
    ensures |GroupOf(p, false)| == 1
  {
  }

  lemma {:induction false} LenientGroupsAre(pieces: seq<Piece>, at: nat)
    requires forall i :: 0 <= i < |pieces| ==> pieces[i].Proper()
    ensures LenientGroups(MatchesOf(pieces, at)) == GroupsOf(pieces, true)
    decreases |pieces|
  {
    hide LenientToken, TokenOf, GroupOf, Piece.Written, Piece.Proper;
    if pieces != [] {
      var next := at + |pieces[0].Written()|;
      LenientTokenIs(pieces[0]);
      LenientGroupsAre(pieces[1..], next);
      assert MatchesOf(pieces, at)[1..] == MatchesOf(pieces[1..], next);
    }
  }

  // ---------------------------------------------------------------------------
  // Products
  // ---------------------------------------------------------------------------

  /** Word `i` of the product: the last group turns fastest. */
  function WordAt(groups: seq<seq<string>>, i: nat): string
    requires i < Count(groups)
    decreases |groups|
  {
    if groups == [] then ""
    else
      var rest := Count(groups[1..]);
      Divides(|groups[0]|, rest, i);
      groups[0][i / rest] + WordAt(groups[1..], i % rest)
  }

  function Words(groups: seq<seq<string>>): (r: seq<string>)
    ensures |r| == Count(groups)
  {
    seq(Count(groups), i requires 0 <= i < Count(groups) => WordAt(groups, i))
  }

  lemma Divides(a: nat, b: nat, i: nat)
    requires i < a * b
    ensures b > 0 && i / b < a
  {
    TimesZero(a, b);
    DivMod(i, b);
    if i / b >= a {
      TimesGrows(a, i / b, b);
    }
  }

  lemma TimesZero(a: nat, b: nat)
    ensures b == 0 ==> a * b == 0
  {
  }

  lemma DivMod(i: nat, n: nat)
    requires n > 0
    ensures i == (i / n) * n + i % n && 0 <= i % n < n
  {
  }

  lemma TimesGrows(a: nat, q: nat, b: nat)
    requires a <= q
    ensures a * b <= q * b
  {
  }

  lemma {:induction false} PrefixedAt(h: string, tails: seq<string>, k: nat)
    requires k < |tails|
    ensures Prefixed(h, tails)[k] == h + tails[k]
  {
    if k > 0 {
      PrefixedAt(h, tails[1..], k - 1);
    }
  }

  lemma {:induction false} AllPrefixedAt(heads: seq<string>, tails: seq<string>, q: nat, k: nat)
    requires q < |heads| && k < |tails|
    ensures q * |tails| + k < |AllPrefixed(heads, tails)|
    ensures AllPrefixed(heads, tails)[q * |tails| + k] == heads[q] + tails[k]
    decreases q
  {
    hide Prefixed;
    var n := |tails|;
    TimesGrows(q + 1, |heads|, n);
    Distribute(q, n);
    if q == 0 {
      PrefixedAt(heads[0], tails, k);
      PrefixOf(Prefixed(heads[0], tails), AllPrefixed(heads[1..], tails), k);
    } else {
      AllPrefixedAt(heads[1..], tails, q - 1, k);
      Distribute(q - 1, n);
      SuffixOf(Prefixed(heads[0], tails), AllPrefixed(heads[1..], tails), (q - 1) * n + k);
    }
  }

  lemma PrefixOf<T>(a: seq<T>, b: seq<T>, k: nat)
    requires k < |a|
    ensures (a + b)[k] == a[k]
  {
  }

  lemma SuffixOf<T>(a: seq<T>, b: seq<T>, k: nat)
    requires k < |b|
    ensures (a + b)[|a| + k] == b[k]
  {
  }

  lemma Distribute(q: int, n: nat)
    ensures (q + 1) * n == q * n + n
  {
  }

  lemma {:induction false} NamesAre(groups: seq<seq<string>>)
    ensures Names(groups) == Words(groups)
  {
    if groups == [] {
      assert Words(groups)[0] == "";
    } else {
      NamesAre(groups[1..]);
      forall i | 0 <= i < Count(groups) ensures Names(groups)[i] == Words(groups)[i] {
        NameAt(groups, i);
      }
    }
  }

  lemma NameAt(groups: seq<seq<string>>, i: nat)
    requires groups != [] && i < Count(groups) && Names(groups[1..]) == Words(groups[1..])
    ensures Names(groups)[i] == WordAt(groups, i)
  {
    hide Names, Words, WordAt, AllPrefixed;
    var rest := Words(groups[1..]);
    Divides(|groups[0]|, |rest|, i);
    DivMod(i, |rest|);
    var q, k := i / |rest|, i % |rest|;
    AllPrefixedAt(groups[0], rest, q, k);
    NamesStep(groups);
    WordsAt(groups[1..], k);
    WordStep(groups, i);
  }

  lemma WordStep(groups: seq<seq<string>>, i: nat)
    requires groups != [] && i < Count(groups)
    ensures var n := Count(groups[1..]);
      n > 0 && i / n < |groups[0]| && WordAt(groups, i) == groups[0][i / n] + WordAt(groups[1..], i % n)
  {
    Divides(|groups[0]|, Count(groups[1..]), i);
  }

  lemma NamesStep(groups: seq<seq<string>>)
    requires groups != []
    ensures Names(groups) == AllPrefixed(groups[0], Names(groups[1..]))
  {
  }

  lemma WordsAt(groups: seq<seq<string>>, i: nat)
    requires i < Count(groups)
    ensures Words(groups)[i] == WordAt(groups, i)
  {
  }

  // ---------------------------------------------------------------------------
  // One name
  // ---------------------------------------------------------------------------

  ghost function StrictWords(pieces: seq<Piece>): (r: seq<string>)
    requires forall i :: 0 <= i < |pieces| ==> pieces[i].Proper()
  {
    Words(GroupsOf(pieces, false))
  }

  /** Names with too many hosts to be plausible are shown as written. */
  ghost function ShownWords(pieces: seq<Piece>): (r: seq<string>)
    requires forall i :: 0 <= i < |pieces| ==> pieces[i].Proper()
  {
    var groups := GroupsOf(pieces, true);
    if Count(groups) > MAX_EXPANSION then [WrittenName(pieces)] else Words(groups)
  }

  lemma CountGrows(size: nat, rest: nat)
    requires size >= 1 && rest >= 1
    ensures size * rest >= rest && size * rest >= size
  {
  }

  lemma {:induction false} GroupWithinCount(groups: seq<seq<string>>, i: nat)
    requires i < |groups| && forall g :: g in groups ==> g != []
    ensures |groups[i]| <= Count(groups) && Count(groups) >= 1
    decreases |groups|
  {
    CountsAgree(groups);
    assert groups[0] in groups && forall g :: g in groups[1..] ==> g in groups;
    CountsAgree(groups[1..]);
    CountGrows(|groups[0]|, Count(groups[1..]));
    if i > 0 {
      GroupWithinCount(groups[1..], i - 1);
      assert groups[i] == groups[1..][i - 1];
    }
  }

  /** For groups that are not empty the running product test is the final one. */
  lemma {:induction false} TooManyIs(groups: seq<seq<string>>, total: nat, room: int)
    requires groups != [] && total >= 1 && forall g :: g in groups ==> g != []
    ensures TooMany(groups, total, room) <==> total * Count(groups) > room
    decreases |groups|
  {
    assert groups[0] in groups && forall g :: g in groups[1..] ==> g in groups;
    var next := total * |groups[0]|;
    CountsAgree(groups[1..]);
    CountGrows(total, |groups[0]|);
    CountGrows(next, Count(groups[1..]));
    MulAssociates(total, |groups[0]|, Count(groups[1..]));
    if |groups| > 1 {
      TooManyIs(groups[1..], next, room);
    } else {
      assert groups[1..] == [];
    }
  }

  lemma StrictNameIs(pieces: seq<Piece>, room: int)
    requires pieces != [] && ProperName(pieces) && room <= LEGACY_MAX_NODES
    ensures StrictName(WrittenName(pieces), room) ==
      if |StrictWords(pieces)| <= room then Some(StrictWords(pieces)) else None
  {
    hide Matches, MatchesOf, StrictGroups, GroupsOf, TooMany, Names, Words, WrittenName, Piece.Proper, Count;
    var name, groups := WrittenName(pieces), GroupsOf(pieces, false);
    MatchesAre("", pieces);
    assert "" + name == name;
    StrictGroupsAre(pieces, 0);
    NamesAre(groups);
    TooManyIs(groups, 1, room);
    if !Bounded(groups) {
      var i :| 0 <= i < |groups| && |groups[i]| > LEGACY_MAX_NODES;
      GroupWithinCount(groups, i);
    }
  }

  lemma LenientNameIs(pieces: seq<Piece>)
    requires pieces != [] && ProperName(pieces)
    ensures LenientName(WrittenName(pieces)) == ShownWords(pieces)
  {
    hide Matches, MatchesOf, LenientGroups, GroupsOf, Names, Words, WrittenName, Piece.Proper, Count, LenientCount;
    var name, groups := WrittenName(pieces), GroupsOf(pieces, true);
    MatchesAre("", pieces);
    assert "" + name == name;
    LenientGroupsAre(pieces, 0);
    NamesAre(groups);
    CountsAgree(groups);
  }

  // ---------------------------------------------------------------------------
  // Lists of names
  // ---------------------------------------------------------------------------

  predicate ProperList(names: seq<seq<Piece>>) {
    forall i :: 0 <= i < |names| ==> names[i] != [] && ProperName(names[i])
  }

  function WrittenNames(names: seq<seq<Piece>>): (r: seq<string>)
    ensures |r| == |names|
  {
    if names == [] then [] else [WrittenName(names[0])] + WrittenNames(names[1..])
  }

  function WrittenList(names: seq<seq<Piece>>): string {
    Join(WrittenNames(names), ',')
  }

  ghost function StrictWordsOf(names: seq<seq<Piece>>): seq<string>
    requires ProperList(names)
  {
    if names == [] then [] else StrictWords(names[0]) + StrictWordsOf(names[1..])
  }

  ghost function ShownWordsOf(names: seq<seq<Piece>>): seq<string>
    requires ProperList(names)
  {
    if names == [] then [] else ShownWords(names[0]) + ShownWordsOf(names[1..])
  }

  lemma {:induction false} StrictHostsAre(names: seq<seq<Piece>>, room: int)
    requires ProperList(names) && 0 <= room <= LEGACY_MAX_NODES
    ensures StrictHosts(WrittenNames(names), room) ==
      if |StrictWordsOf(names)| <= room then Some(StrictWordsOf(names)) else None
    decreases |names|
  {
    hide StrictName, StrictWords, WrittenName;
    if names != [] {
      var ws := WrittenNames(names);
      assert ws[0] == WrittenName(names[0]) && ws[1..] == WrittenNames(names[1..]);
      StrictNameIs(names[0], room);
      if |StrictWords(names[0])| <= room {
        StrictHostsAre(names[1..], room - |StrictWords(names[0])|);
      }
    }
  }

  lemma {:induction false} LenientHostsAre(names: seq<seq<Piece>>)
    requires ProperList(names)
    ensures LenientHosts(WrittenNames(names)) == ShownWordsOf(names)
    decreases |names|
  {
    hide LenientName, ShownWords, WrittenName, ProperName;
    if names != [] {
      var ws := WrittenNames(names);
      assert ws[0] == WrittenName(names[0]) && ws[1..] == WrittenNames(names[1..]);
      LenientNameIs(names[0]);
      LenientHostsAre(names[1..]);
    }
  }

  /** How deep in brackets a text leaves the reader. */
  function DepthAfter(depth: nat, s: string): nat
    decreases |s|
  {
    if s == "" then depth else DepthAfter(Depth(depth, s[0]), s[1..])
  }

  /** No comma of the text stands outside brackets. */
  predicate OnePart(depth: nat, s: string)
    decreases |s|
  {
    s == "" || (!(s[0] == ',' && Depth(depth, s[0]) == 0) && OnePart(Depth(depth, s[0]), s[1..]))
  }

  lemma {:induction false} RunsTogether(depth: nat, a: string, b: string)
    ensures DepthAfter(depth, a + b) == DepthAfter(DepthAfter(depth, a), b)
    ensures OnePart(depth, a + b) <==> OnePart(depth, a) && OnePart(DepthAfter(depth, a), b)
    decreases |a|
  {
    if a == "" {
      assert a + b == b;
    } else {
      assert (a + b)[1..] == a[1..] + b;
      RunsTogether(Depth(depth, a[0]), a[1..], b);
    }
  }

  lemma {:induction false} PlainRuns(depth: nat, s: string)
    requires forall k :: 0 <= k < |s| ==> s[k] != '[' && s[k] != ']' && (s[k] == ',' ==> depth > 0)
    ensures DepthAfter(depth, s) == depth && OnePart(depth, s)
    decreases |s|
  {
    if s != "" {
      PlainRuns(depth, s[1..]);
    }
  }

  lemma BracketRuns(spec: string)
    requires AllInner(spec)
    ensures DepthAfter(0, "[" + spec + "]") == 0 && OnePart(0, "[" + spec + "]")
  {
    assert forall k :: 0 <= k < |spec| ==> Inner(spec[k]);
    PlainRuns(1, spec);
    RunsTogether(1, spec, "]");
    assert DepthAfter(1, "]") == DepthAfter(0, "") && OnePart(1, "]");
    assert ("[" + spec + "]")[1..] == spec + "]";
  }

  lemma PieceRuns(p: Piece)
    requires p.Proper()
    ensures p.Written() != "" && DepthAfter(0, p.Written()) == 0 && OnePart(0, p.Written())
    ensures !IsSpace(p.Written()[0]) && !IsSpace(p.Written()[|p.Written()| - 1])
  {
    hide Join, WrittenParts, DepthAfter, OnePart;
    match p
    case Text(text) =>
      forall k | 0 <= k < |text| ensures text[k] != '[' && text[k] != ']' && text[k] != ',' && !IsSpace(text[k]) {
        assert IsNameChar(text[k]);
      }
      PlainRuns(0, text);
    case Choice(parts) =>
      JoinInner(parts);
      BracketRuns(Join(WrittenParts(parts), ','));
  }

  lemma {:induction false} NameRuns(pieces: seq<Piece>)
    requires forall i :: 0 <= i < |pieces| ==> pieces[i].Proper()
    ensures var s := WrittenName(pieces);
      && DepthAfter(0, s) == 0 && OnePart(0, s)
      && (pieces != [] ==> s != "" && !IsSpace(s[0]) && !IsSpace(s[|s| - 1]))
    decreases |pieces|
  {
    hide Piece.Written, Piece.Proper;
    if pieces != [] {
      PieceRuns(pieces[0]);
      NameRuns(pieces[1..]);
      RunsTogether(0, pieces[0].Written(), WrittenName(pieces[1..]));
      if pieces[1..] == [] {
        assert WrittenName(pieces) == pieces[0].Written();
      }
    }
  }

  lemma {:induction false} RawRun(expr: string, i: nat, s: string, depth: nat, cur: string)
    requires i + |s| <= |expr| && expr[i..i + |s|] == s && OnePart(depth, s)
    ensures RawParts(expr, i, depth, cur) == RawParts(expr, i + |s|, DepthAfter(depth, s), cur + s)
    decreases |s|
  {
    if s == "" {
      assert cur + s == cur;
    } else {
      assert expr[i] == s[0] && expr[i + 1..i + 1 + |s[1..]|] == s[1..];
      RawRun(expr, i + 1, s[1..], Depth(depth, s[0]), cur + [s[0]]);
      assert cur + [s[0]] + s[1..] == cur + s;
    }
  }

  lemma RawName(pre: string, w: string, rest: string)
    requires OnePart(0, w) && DepthAfter(0, w) == 0
    ensures RawParts(pre + w + rest, |pre|, 0, "") == RawParts(pre + w + rest, |pre| + |w|, 0, w)
  {
    hide OnePart, DepthAfter;
    var expr := pre + w + rest;
    assert expr[|pre|..|pre| + |w|] == w;
    RawRun(expr, |pre|, w, 0, "");
    assert "" + w == w;
  }

  lemma RawComma(pre: string, w: string, rest: string)
    ensures RawParts(pre + w + ("," + rest), |pre| + |w|, 0, w) == [w] + RawParts(pre + w + "," + rest, |pre + w + ","|, 0, "")
  {
    var expr := pre + w + ("," + rest);
    assert expr == pre + w + "," + rest && expr[|pre| + |w|] == ',';
  }

  lemma RawLast(pre: string, w: string)
    ensures RawParts(pre + w + "", |pre| + |w|, 0, w) == [w]
  {
  }

  /** Every name of the list is a part of its own. */
  lemma {:induction false} RawPartsAre(pre: string, names: seq<seq<Piece>>)
    requires names != [] && ProperList(names)
    ensures RawParts(pre + WrittenList(names), |pre|, 0, "") == WrittenNames(names)
    decreases |names|
  {
    hide WrittenName, OnePart, DepthAfter, RawParts;
    var ws := WrittenNames(names);
    var w := ws[0];
    assert w == WrittenName(names[0]) && ws[1..] == WrittenNames(names[1..]);
    NameRuns(names[0]);
    if |names| == 1 {
      RawName(pre, w, "");
      RawLast(pre, w);
      assert pre + w + "" == pre + WrittenList(names);
    } else {
      var rest := WrittenList(names[1..]);
      RawName(pre, w, "," + rest);
      RawComma(pre, w, rest);
      RawPartsAre(pre + w + ",", names[1..]);
      assert pre + w + ("," + rest) == pre + WrittenList(names);
    }
  }

  lemma {:induction false} StripAllIs(names: seq<seq<Piece>>)
    requires ProperList(names)
    ensures StripAll(WrittenNames(names)) == WrittenNames(names)
    decreases |names|
  {
    hide WrittenName, Strip;
    if names != [] {
      var ws := WrittenNames(names);
      assert ws[0] == WrittenName(names[0]) && ws[1..] == WrittenNames(names[1..]);
      NameRuns(names[0]);
      StripTight(ws[0]);
      StripAllIs(names[1..]);
    }
  }

  lemma TopLevelNamesAre(names: seq<seq<Piece>>)
    requires names != [] && ProperList(names)
    ensures TopLevelNames(WrittenList(names)) == WrittenNames(names)
  {
    hide ProperName;
    RawPartsAre("", names);
    assert "" + WrittenList(names) == WrittenList(names);
    StripAllIs(names);
  }

  /** The lenient expander reads a written list as the hosts it spells out, in
      the order written. */
  lemma ExpandReads(names: seq<seq<Piece>>)
    requires names != [] && ProperList(names)
    ensures Expand(WrittenList(names)) == ShownWordsOf(names)
  {
    hide TopLevelNames, WrittenNames, LenientHosts, ProperList;
    TopLevelNamesAre(names);
    LenientHostsAre(names);
  }

  /** The characters of a written list. */
  predicate Clean(c: char) {
    IsNameChar(c) || c == '[' || c == ']' || c == ','
  }

  predicate AllClean(s: string) {
    forall k :: 0 <= k < |s| ==> Clean(s[k])
  }

  lemma CleanConcat(a: string, b: string)
    requires AllClean(a) && AllClean(b)
    ensures AllClean(a + b)
  {
  }

  lemma PieceClean(p: Piece)
    requires p.Proper()
    ensures AllClean(p.Written())
  {
    hide Join, WrittenParts;
    match p
    case Text(text) =>
      forall k | 0 <= k < |text| ensures Clean(text[k]) {
        assert IsNameChar(text[k]);
      }
    case Choice(parts) =>
      JoinInner(parts);
      var spec := Join(WrittenParts(parts), ',');
      forall k | 0 <= k < |spec| ensures Clean(spec[k]) {
        assert Inner(spec[k]);
      }
  }

  lemma {:induction false} NameClean(pieces: seq<Piece>)
    requires forall i :: 0 <= i < |pieces| ==> pieces[i].Proper()
    ensures AllClean(WrittenName(pieces))
    decreases |pieces|
  {
    hide Piece.Written, Piece.Proper, AllClean;
    if pieces == [] {
      assert AllClean("") by { NothingClean(); }
    } else {
      PieceClean(pieces[0]);
      NameClean(pieces[1..]);
      CleanConcat(pieces[0].Written(), WrittenName(pieces[1..]));
    }
  }

  lemma NothingClean()
    ensures AllClean("") && AllClean(",")
  {
  }

  lemma {:induction false} ListClean(names: seq<seq<Piece>>)
    requires ProperList(names)
    ensures AllClean(WrittenList(names))
    ensures names != [] ==> WrittenList(names) != ""
    decreases |names|
  {
    hide WrittenName, AllClean;
    NothingClean();
    if names != [] {
      var ws := WrittenNames(names);
      assert ws[0] == WrittenName(names[0]) && ws[1..] == WrittenNames(names[1..]);
      NameClean(names[0]);
      NameRuns(names[0]);
      ListClean(names[1..]);
      if |names| > 1 {
        CleanConcat(ws[0], ",");
        CleanConcat(ws[0] + ",", Join(ws[1..], ','));
      }
    }
  }

  lemma CleanIsPlain(s: string)
    requires AllClean(s) && s != ""
    ensures !IsNullMarker(s) && forall i :: 0 <= i < |s| ==> s[i] >= ' '
  {
    assert Clean(s[0]) && !Clean('(') && !Clean('/');
    assert |s| > 1 ==> Clean(s[1]);
    forall i | 0 <= i < |s| ensures s[i] >= ' ' {
      assert Clean(s[i]);
    }
  }

  ghost predicate NameWords(s: seq<string>) {
    forall h :: h in s ==> AllNameChars(h)
  }

  lemma {:induction false} ValuesAreNames(parts: seq<Part>)
    requires forall i :: 0 <= i < |parts| ==> parts[i].Proper()
    ensures NameWords(ValuesOf(parts, false))
    decreases |parts|
  {
    if parts != [] {
      ValuesAreNames(parts[1..]);
      PartIsNames(parts[0]);
    }
  }

  lemma PartIsNames(p: Part)
    requires p.Proper()
    ensures NameWords(p.Values())
  {
    hide Numerals, Int;
    forall h | h in p.Values() ensures AllNameChars(h) {
      assert AllDigits(h) by {
        if p.Span? {
          var i :| 0 <= i < |p.Values()| && p.Values()[i] == h;
          assert Numeral(h, Int(p.lo) + i, |p.lo|);
        }
      }
      DigitsAreNames(h);
    }
  }

  lemma DigitsAreNames(h: string)
    requires AllDigits(h)
    ensures AllNameChars(h)
  {
    forall i | 0 <= i < |h| ensures IsNameChar(h[i]) {
      assert IsDigit(h[i]);
    }
  }

  lemma {:induction false} GroupsAreNames(pieces: seq<Piece>, k: nat)
    requires (forall i :: 0 <= i < |pieces| ==> pieces[i].Proper()) && k < |pieces|
    ensures NameWords(GroupsOf(pieces, false)[k])
    decreases k
  {
    if k == 0 {
      if pieces[0].Choice? {
        ValuesAreNames(pieces[0].parts);
      }
    } else {
      GroupsAreNames(pieces[1..], k - 1);
    }
  }

  lemma {:induction false} WordIsName(groups: seq<seq<string>>, i: nat)
    requires i < Count(groups) && forall k :: 0 <= k < |groups| ==> NameWords(groups[k])
    ensures groups != [] ==> AllNameChars(WordAt(groups, i))
    ensures groups == [] ==> WordAt(groups, i) == ""
    decreases |groups|
  {
    hide WordAt, NameWords;
    if groups == [] {
      NoWord(i);
    } else {
      var n := Count(groups[1..]);
      WordStep(groups, i);
      DivMod(i, n);
      forall k | 0 <= k < |groups[1..]| ensures NameWords(groups[1..][k]) {
        assert groups[1..][k] == groups[k + 1];
      }
      WordIsName(groups[1..], i % n);
      MemberIsName(groups[0], i / n);
      NamesJoin(groups[0][i / n], WordAt(groups[1..], i % n));
    }
  }

  lemma NoWord(i: nat)
    requires i < Count([])
    ensures WordAt([], i) == ""
  {
  }

  lemma MemberIsName(g: seq<string>, i: nat)
    requires NameWords(g) && i < |g|
    ensures AllNameChars(g[i])
  {
    assert g[i] in g;
  }

  lemma NamesJoin(a: string, b: string)
    requires AllNameChars(a) && (b == "" || AllNameChars(b))
    ensures AllNameChars(a + b)
  {
  }

  lemma StrictWordsAreNames(pieces: seq<Piece>)
    requires pieces != [] && forall i :: 0 <= i < |pieces| ==> pieces[i].Proper()
    ensures NameWords(StrictWords(pieces)) && StrictWords(pieces) != []
  {
    hide Piece.Proper, GroupsOf, WordAt, AllNameChars, Count;
    var groups := GroupsOf(pieces, false);
    forall k | 0 <= k < |groups| ensures NameWords(groups[k]) {
      GroupsAreNames(pieces, k);
    }
    forall i | 0 <= i < Count(groups) ensures AllNameChars(StrictWords(pieces)[i]) {
      WordIsName(groups, i);
    }
    GroupWithinCount(groups, 0);
  }

  lemma {:induction false} AllStrictWordsAreNames(names: seq<seq<Piece>>)
    requires ProperList(names)
    ensures NameWords(StrictWordsOf(names)) && (names != [] ==> StrictWordsOf(names) != [])
    decreases |names|
  {
    hide StrictWords, AllNameChars;
    if names != [] {
      StrictWordsAreNames(names[0]);
      AllStrictWordsAreNames(names[1..]);
    }
  }

  /** What strict expansion asks of the hosts a list spells out. */
  ghost predicate Fits(text: string, hosts: seq<string>) {
    |text| <= 8192 && |hosts| <= LEGACY_MAX_NODES && NoDuplicates(hosts) && forall h :: h in hosts ==> |h| <= 255
  }

  /** The strict expander reads a written list as the same hosts, sorted, if they
      are distinct and within the limits, and refuses it otherwise. */
  lemma StrictReads(names: seq<seq<Piece>>)
    requires names != [] && ProperList(names)
    ensures StrictExpand(WrittenList(names)) ==
      if Fits(WrittenList(names), StrictWordsOf(names)) then Some(SortStrings(StrictWordsOf(names))) else None
  {
    hide TopLevelNames, WrittenNames, StrictHosts, StrictWordsOf, ProperList, AllClean, SortStrings, NoDuplicates, WrittenList;
    var text, hosts := WrittenList(names), StrictWordsOf(names);
    ListClean(names);
    CleanIsPlain(text);
    TopLevelNamesAre(names);
    StrictHostsAre(names, LEGACY_MAX_NODES);
    AllStrictWordsAreNames(names);
    WrittenListIs(names);
    forall i | 0 <= i < |hosts| ensures ValidHost(hosts[i]) <==> |hosts[i]| <= 255 {
      assert hosts[i] in hosts;
    }
  }

  lemma WrittenListIs(names: seq<seq<Piece>>)
    ensures WrittenList(names) == Join(WrittenNames(names), ',')
  {
  }

  lemma LastGroup(values: seq<string>, i: nat)
    requires i < |values|
    ensures Count([values]) == |values| && WordAt([values], i) == values[i]
  {
    var groups := [values];
    assert groups[1..] == [] && Count(groups[1..]) == 1;
    CountStep(groups);
    TimesOne(|values|);
    WordStep(groups, i);
    DivByOne(i);
    NoWord(0);
    assert values[i] + "" == values[i];
  }

  lemma CountStep(groups: seq<seq<string>>)
    requires groups != []
    ensures Count(groups) == |groups[0]| * Count(groups[1..])
  {
  }

  lemma TimesOne(n: nat)
    ensures n * 1 == n && 1 * n == n
  {
  }

  lemma DivByOne(i: nat)
    ensures i / 1 == i && i % 1 == 0
  {
  }

  lemma DivSmall(i: nat, n: nat)
    requires i < n
    ensures i / n == 0 && i % n == i
  {
  }

  lemma FirstText(text: string, groups: seq<seq<string>>, i: nat)
    requires i < Count(groups)
    ensures Count([[text]] + groups) == Count(groups) && WordAt([[text]] + groups, i) == text + WordAt(groups, i)
  {
    var all := [[text]] + groups;
    assert all[0] == [text] && all[1..] == groups;
    CountStep(all);
    TimesOne(Count(groups));
    WordStep(all, i);
    DivSmall(i, Count(groups));
  }

  lemma PieceGroups(prefix: string, span: Part, loose: bool)
    requires AllNameChars(prefix) && span.Proper() && |span.Values()| <= MAX_EXPANSION
    ensures GroupsOf([Text(prefix), Choice([span])], loose) == [[prefix]] + [span.Values()]
  {
    hide Part.Values, Part.Proper;
    var pieces: seq<Piece> := [Text(prefix), Choice([span])];
    var last: seq<Piece> := [Choice([span])];
    var parts := [span];
    assert pieces[1..] == last && last[1..] == [] && parts[1..] == [];
    assert ValuesOf(parts[1..], loose) == [];
    assert ValuesOf(parts, loose) == span.Values() + [] == span.Values();
    assert GroupsOf(last[1..], loose) == [];
    assert GroupOf(last[0], loose) == span.Values();
    assert GroupsOf(last, loose) == [span.Values()] + [];
    assert GroupOf(pieces[0], loose) == [prefix];
  }

  /** In particular, a prefix with one range spells its numbers in order, with
      the zero padding of the first, for both expanders. */
  lemma RangeOfHosts(prefix: string, lo: string, hi: string, i: nat)
    requires AllNameChars(prefix) && Span(lo, hi).Proper() && Int(lo) + i <= Int(hi) < Int(lo) + MAX_EXPANSION
    ensures var pieces := [Text(prefix), Choice([Span(lo, hi)])];
      && |StrictWords(pieces)| == |ShownWords(pieces)| == Int(hi) - Int(lo) + 1
      && StrictWords(pieces)[i] == ShownWords(pieces)[i] == prefix + NumeralOf(Int(lo) + i, |lo|)
  {
    hide Int, NumeralOf, GroupsOf, Count, WordAt, WrittenName;
    var span := Span(lo, hi);
    var pieces: seq<Piece> := [Text(prefix), Choice([span])];
    var values := span.Values();
    PieceGroups(prefix, span, true);
    PieceGroups(prefix, span, false);
    LastGroup(values, i);
    FirstText(prefix, [values], i);
  }

  /** Strict expansion finds no host exactly in the three texts for none. */
  lemma NoHostsIff(expr: string)
    ensures StrictExpand(expr) == Some([]) <==> expr in {"", "(null)", "N/A"}
  {
    hide StrictAccepted, SortStrings;
    if !IsNullMarker(expr) && StrictExpand(expr).Some? {
      ExpandersAgree(expr);
    }
  }
}
