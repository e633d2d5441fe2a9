/**
The two expanders of SLURM nodelists such as `gpu[01-03,7],node7`: the strict,
bounded one that guards identities, and the lenient one used for display.
*/
module Nodelist {
  import opened Common

  // ---------------------------------------------------------------------------
  // Characters and small string functions
  // ---------------------------------------------------------------------------

  /** The characters Python's `str.strip` and `str.split` remove. */
  predicate IsSpace(c: char) {
    || '\t' <= c <= '\r' || '\U{1C}' <= c <= ' ' || c == '\U{85}' || c == '\U{A0}' || c == '\U{1680}'
    || '\U{2000}' <= c <= '\U{200A}' || c == '\U{2028}' || c == '\U{2029}' || c == '\U{202F}'
    || c == '\U{205F}' || c == '\U{3000}'
  }

  predicate IsDigit(c: char) {
    '0' <= c <= '9'
  }

  /** `str.isdigit`, over ASCII. */
  predicate AllDigits(s: string) {
    s != "" && forall i :: 0 <= i < |s| ==> IsDigit(s[i])
  }

  predicate IsNameChar(c: char) {
    'A' <= c <= 'Z' || 'a' <= c <= 'z' || IsDigit(c) || c == '_' || c == '.' || c == '-'
  }

  predicate AllNameChars(s: string) {
    s != "" && forall i :: 0 <= i < |s| ==> IsNameChar(s[i])
  }

  function Strip(s: string): string {
    if s == "" then ""
    else if IsSpace(s[0]) then Strip(s[1..])
    else if IsSpace(s[|s| - 1]) then Strip(s[..|s| - 1])
    else s
  }

  /** `str.split(sep)` for a one-character separator. */
  function SplitOn(s: string, sep: char): (parts: seq<string>)
    ensures parts != []
  {
    if s == "" then [""]
    else if s[0] == sep then [""] + SplitOn(s[1..], sep)
    else var rest := SplitOn(s[1..], sep); [[s[0]] + rest[0]] + rest[1..]
  }

  /** `str.partition`: the position of the first `sep`, or the length. */
  function FirstIndex(s: string, c: char): (i: nat)
    ensures i <= |s| && (i < |s| ==> s[i] == c) && forall k :: 0 <= k < i ==> s[k] != c
  {
    if s == "" || s[0] == c then 0 else 1 + FirstIndex(s[1..], c)
  }

  function Int(digits: string): nat
    requires forall i :: 0 <= i < |digits| ==> IsDigit(digits[i])
  {
    if digits == "" then 0
    else 10 * Int(digits[..|digits| - 1]) + DigitValue(digits[|digits| - 1])
  }

  function DigitValue(c: char): nat
    requires IsDigit(c)
  {
    c as int - '0' as int
  }

  function DigitChar(d: nat): (c: char)
    requires d < 10
    ensures IsDigit(c) && DigitValue(c) == d
  {
    (d + '0' as int) as char
  }

  /** `str(n)` */
  function Show(n: nat): (s: string)
    ensures AllDigits(s)
  {
    if n < 10 then [DigitChar(n)] else Show(n / 10) + [DigitChar(n % 10)]
  }

  /** `str.zfill` on a string of digits. */
  function ZFill(s: string, width: nat): string
    decreases width - |s|
  {
    if |s| >= width then s else ZFill("0" + s, width)
  }

  /** `[str(i).zfill(width) for i in range(lo, hi + 1)]` */
  function Range(lo: nat, hi: int, width: nat): (r: seq<string>)
    ensures |r| == if lo <= hi then hi - lo + 1 else 0
    decreases hi - lo
  {
    if lo > hi then [] else [ZFill(Show(lo), width)] + Range(lo + 1, hi, width)
  }

  // ---------------------------------------------------------------------------
  // Tokens of one name
  // ---------------------------------------------------------------------------

  datatype Token = Literal(text: string) | Bracket(spec: string)

  datatype Match = Match(start: nat, end: nat, token: Token)

  function LiteralEnd(name: string, i: nat): (j: nat)
    requires i <= |name|
    ensures i <= j <= |name|
    decreases |name| - i
  {
    if i == |name| || name[i] == '[' || name[i] == ']' then i else LiteralEnd(name, i + 1)
  }

  function ClosingBracket(name: string, i: nat): (j: nat)
    requires i <= |name|
    ensures i <= j <= |name| && (j < |name| ==> name[j] == ']')
    decreases |name| - i
  {
    if i == |name| || name[i] == ']' then i else ClosingBracket(name, i + 1)
  }

  /** The non-overlapping matches of `\[([^\]]*)\]|([^\[\]]+)` from `i` on; a
      bracket that closes nothing or is never closed matches nothing. */
  function Matches(name: string, i: nat): seq<Match>
    requires i <= |name|
    decreases |name| - i
  {
    if i == |name| then []
    else if name[i] == ']' then Matches(name, i + 1)
    else if name[i] == '[' then
      var j := ClosingBracket(name, i + 1);
      if j == |name| then Matches(name, i + 1)
      else [Match(i, j + 1, Bracket(name[i + 1..j]))] + Matches(name, j + 1)
    else
      var j := LiteralEnd(name, i + 1);
      [Match(i, j, Literal(name[i..j]))] + Matches(name, j)
  }

  // ---------------------------------------------------------------------------
  // Splitting an expression into names
  // ---------------------------------------------------------------------------

  /** The parts of `expr[i..]` between commas outside brackets; `cur` is the
      part under way and `depth` the number of open brackets. */
  function RawParts(expr: string, i: nat, depth: nat, cur: string): seq<string>
    requires i <= |expr|
    decreases |expr| - i
  {
    if i == |expr| then [cur]
    else
      var d := Depth(depth, expr[i]);
      if expr[i] == ',' && d == 0 then [cur] + RawParts(expr, i + 1, d, "")
      else RawParts(expr, i + 1, d, cur + [expr[i]])
  }

  function Depth(depth: nat, c: char): nat {
    if c == '[' then depth + 1 else if c == ']' && depth > 0 then depth - 1 else depth
  }

  function StripAll(parts: seq<string>): seq<string> {
    if parts == [] then []
    else if Strip(parts[0]) == "" then StripAll(parts[1..])
    else [Strip(parts[0])] + StripAll(parts[1..])
  }

  function TopLevelNames(expr: string): seq<string> {
    StripAll(RawParts(expr, 0, 0, ""))
  }

  function Join(parts: seq<string>, sep: char): string {
    if parts == [] then "" else if |parts| == 1 then parts[0] else parts[0] + [sep] + Join(parts[1..], sep)
  }

  /** Splitting loses nothing but the separating commas. */
  lemma {:induction false} RawPartsJoin(expr: string, i: nat, depth: nat, cur: string)
    requires i <= |expr|
    ensures RawParts(expr, i, depth, cur) != [] && Join(RawParts(expr, i, depth, cur), ',') == cur + expr[i..]
    decreases |expr| - i
  {
    if i < |expr| {
      var d := Depth(depth, expr[i]);
      assert expr[i..] == [expr[i]] + expr[i + 1..];
      if expr[i] == ',' && d == 0 {
        RawPartsJoin(expr, i + 1, d, "");
        assert "" + expr[i + 1..] == expr[i + 1..];
      } else {
        RawPartsJoin(expr, i + 1, d, cur + [expr[i]]);
      }
    }
  }

  method SplitTopLevel(expr: string) returns (names: seq<string>)
    ensures names == TopLevelNames(expr)
  {
    var out, depth, cur := [], 0, "";
    for i := 0 to |expr|
      invariant depth >= 0 && out + RawParts(expr, i, depth, cur) == RawParts(expr, 0, 0, "")
    {
      if expr[i] == '[' {
        depth := depth + 1;
      } else if expr[i] == ']' {
        depth := if depth > 0 then depth - 1 else 0;
      }
      if expr[i] == ',' && depth == 0 {
        assert out + ([cur] + RawParts(expr, i + 1, depth, "")) == (out + [cur]) + RawParts(expr, i + 1, depth, "");
        out := out + [cur];
        cur := "";
      } else {
        cur := cur + [expr[i]];
      }
    }
    out := out + [cur];
    names := [];
    for i := 0 to |out|
      invariant names + StripAll(out[i..]) == StripAll(out)
    {
      assert out[i..][0] == out[i] && out[i..][1..] == out[i + 1..];
      if Strip(out[i]) != "" {
        names := names + [Strip(out[i])];
      }
    }
  }

  // ---------------------------------------------------------------------------
  // Ranges inside brackets
  // ---------------------------------------------------------------------------

  const LEGACY_MAX_NODES := 4096
  const MAX_EXPANSION := 100000

  /** What strict parsing adds for one part when `room` values may still be added. */
  function StrictPart(part: string, room: int): Option<seq<string>> {
    var cut := FirstIndex(part, '-');
    var start := part[..cut];
    if !AllDigits(start) then None
    else if cut == |part| then (if 1 <= room then Some([start]) else None)
    else
      var end := part[cut + 1..];
      if !AllDigits(end) || Int(start) > Int(end) || Int(end) - Int(start) + 1 > room then None
      else Some(Range(Int(start), Int(end), |start|))
  }

  /** `head` in front of what a later step yields, if it yields anything. */
  function Prepend<T>(head: seq<T>, rest: Option<seq<T>>): Option<seq<T>> {
    if rest.None? then None else Some(head + rest.value)
  }

  lemma PrependTwice<T>(a: seq<T>, b: seq<T>, rest: Option<seq<T>>)
    ensures Prepend(a, Prepend(b, rest)) == Prepend(a + b, rest)
  {
    if rest.Some? {
      assert a + (b + rest.value) == a + b + rest.value;
    }
  }

  lemma PrependNothing<T>(a: seq<T>, rest: Option<seq<T>>)
    ensures Prepend([], rest) == rest && Prepend(a, Some([])) == Some(a)
  {
    if rest.Some? {
      assert [] + rest.value == rest.value;
    }
    assert a + [] == a;
  }

  function StrictParts(parts: seq<string>, room: int): Option<seq<string>> {
    if parts == [] then Some([])
    else
      var vs := StrictPart(parts[0], room);
      if vs.None? then None else Prepend(vs.value, StrictParts(parts[1..], room - |vs.value|))
  }

  function StrictRange(spec: string, limit: int): Option<seq<string>> {
    StrictParts(SplitOn(spec, ','), limit)
  }

  method StrictRangeValues(spec: string, limit: int) returns (r: Option<seq<string>>)
    ensures r == StrictRange(spec, limit)
  {
    hide SplitOn, Range, Int;
    var values: seq<string> := [];
    var parts := SplitOn(spec, ',');
    ghost var goal := StrictRange(spec, limit);
    assert parts[0..] == parts;
    PrependNothing([], goal);
    for i := 0 to |parts|
      invariant goal == Prepend(values, StrictParts(parts[i..], limit - |values|))
    {
      var part := parts[i];
      assert parts[i..][0] == part && parts[i..][1..] == parts[i + 1..];
      if part == "" {
        return None;
      }
      var cut := FirstIndex(part, '-');
      var start, end := part[..cut], part[if cut < |part| then cut + 1 else cut..];
      if !AllDigits(start) {
        return None;
      }
      ghost var before := values;
      if cut < |part| {
        if !AllDigits(end) {
          return None;
        }
        var lo, hi := Int(start), Int(end);
        if lo > hi || hi - lo + 1 > limit - |values| {
          return None;
        }
        values := values + Range(lo, hi, |start|);
      } else {
        values := values + [start];
      }
      if |values| > limit {
        return None;
      }
      PrependTwice(before, values[|before|..], StrictParts(parts[i + 1..], limit - |values|));
    }
    assert parts[|parts|..] == [];
    PrependNothing(values, goal);
    return Some(values);
  }

  /** What lenient parsing adds for one part: nothing for a blank one, and the
      part itself when it is not a plain range. */
  function LenientPart(part: string): seq<string> {
    var r := Strip(part);
    var cut := FirstIndex(r, '-');
    if r == "" then []
    else if cut < |r| && AllDigits(r[..cut]) && AllDigits(r[cut + 1..])
            && Int(r[..cut]) <= Int(r[cut + 1..]) && Int(r[cut + 1..]) - Int(r[..cut]) < MAX_EXPANSION
    then Range(Int(r[..cut]), Int(r[cut + 1..]), cut)
    else [r]
  }

  function LenientParts(parts: seq<string>): seq<string> {
    if parts == [] then [] else LenientPart(parts[0]) + LenientParts(parts[1..])
  }

  method ExpandPart(part: string) returns (out: seq<string>)
    ensures out == LenientPart(part)
  {
    var r := Strip(part);
    if r == "" {
      return [];
    }
    var cut := FirstIndex(r, '-');
    if cut < |r| && AllDigits(r[..cut]) && AllDigits(r[cut + 1..]) {
      var lo, hi := Int(r[..cut]), Int(r[cut + 1..]);
      if lo <= hi && hi - lo < MAX_EXPANSION {
        return Range(lo, hi, cut);
      }
    }
    return [r];
  }

  method ExpandRangeSpec(spec: string) returns (out: seq<string>)
    ensures out == LenientParts(SplitOn(spec, ','))
  {
    hide LenientPart, SplitOn;
    out := [];
    var parts := SplitOn(spec, ',');
    for i := 0 to |parts|
      invariant out + LenientParts(parts[i..]) == LenientParts(parts)
    {
      assert parts[i..][0] == parts[i] && parts[i..][1..] == parts[i + 1..];
      ghost var before := out;
      var more := ExpandPart(parts[i]);
      out := out + more;
      assert before + (LenientPart(parts[i]) + LenientParts(parts[i + 1..])) == out + LenientParts(parts[i + 1..]);
    }
  }

  // ---------------------------------------------------------------------------
  // Names
  // ---------------------------------------------------------------------------

  /** `h` followed by each of `tails`. */
  function Prefixed(h: string, tails: seq<string>): (r: seq<string>)
    ensures |r| == |tails|
  {
    if tails == [] then [] else [h + tails[0]] + Prefixed(h, tails[1..])
  }

  function AllPrefixed(heads: seq<string>, tails: seq<string>): (r: seq<string>)
    ensures |r| == |heads| * |tails|
  {
    if heads == [] then [] else Prefixed(heads[0], tails) + AllPrefixed(heads[1..], tails)
  }

  /** `"".join(parts) for parts in itertools.product(*groups)` */
  function Names(groups: seq<seq<string>>): (r: seq<string>)
    ensures |r| == Count(groups)
  {
    if groups == [] then [""] else AllPrefixed(groups[0], Names(groups[1..]))
  }

  function Count(groups: seq<seq<string>>): nat {
    if groups == [] then 1 else |groups[0]| * Count(groups[1..])
  }

  function StrictToken(t: Token): Option<seq<string>> {
    match t
    case Literal(text) => if AllNameChars(text) then Some([text]) else None
    case Bracket(spec) =>
      match StrictRange(spec, LEGACY_MAX_NODES)
      case None => None
      case Some(vs) => if vs == [] then None else Some(vs)
  }

  /** The groups of the matches, when they cover the name up to `end` without a gap. */
  function StrictGroups(ms: seq<Match>, cursor: nat, end: nat): Option<seq<seq<string>>> {
    if ms == [] then (if cursor == end then Some([]) else None)
    else if ms[0].start != cursor then None
    else
      var vs := StrictToken(ms[0].token);
      if vs.None? then None else Prepend([vs.value], StrictGroups(ms[1..], ms[0].end, end))
  }

  /** Some partial product of the group sizes, times `total`, exceeds `room`. */
  predicate TooMany(groups: seq<seq<string>>, total: nat, room: int) {
    groups != [] && (total * |groups[0]| > room || TooMany(groups[1..], total * |groups[0]|, room))
  }

  function StrictName(name: string, room: int): Option<seq<string>> {
    match StrictGroups(Matches(name, 0), 0, |name|)
    case None => None
    case Some(groups) => if groups == [] || TooMany(groups, 1, room) then None else Some(Names(groups))
  }

  function StrictHosts(names: seq<string>, room: int): Option<seq<string>> {
    if names == [] then Some([])
    else
      var hs := StrictName(names[0], room);
      if hs.None? then None else Prepend(hs.value, StrictHosts(names[1..], room - |hs.value|))
  }

  predicate NoDuplicates(hosts: seq<string>) {
    forall i, j :: 0 <= i < j < |hosts| ==> hosts[i] != hosts[j]
  }

  predicate ValidHost(h: string) {
    1 <= |h| <= 255 && AllNameChars(h)
  }

  predicate IsNullMarker(expr: string) {
    expr == "" || expr == "(null)" || expr == "N/A"
  }

  predicate WithinLimits(expr: string) {
    |expr| <= 8192 && forall i :: 0 <= i < |expr| ==> expr[i] >= ' '
  }

  /** What strict expansion accepts, before sorting. */
  function StrictAccepted(expr: string): Option<seq<string>> {
    if !WithinLimits(expr) then None
    else
      match StrictHosts(TopLevelNames(expr), LEGACY_MAX_NODES)
      case None => None
      case Some(hosts) =>
        if hosts == [] || !NoDuplicates(hosts) || exists i :: 0 <= i < |hosts| && !ValidHost(hosts[i]) then None
        else Some(hosts)
  }

  /** Strict expansion: the sorted hosts, or nothing when the spelling is odd. */
  function StrictExpand(expr: string): Option<seq<string>> {
    if IsNullMarker(expr) then Some([])
    else
      match StrictAccepted(expr)
      case None => None
      case Some(hosts) => Some(SortStrings(hosts))
  }

  lemma OneMatch(c: char)
    requires IsNameChar(c)
    ensures Matches([c], 0) == [Match(0, 1, Literal([c]))]
  {
    var name: string := [c];
    assert |name| == 1 && name[0] == c && c != '[' && c != ']';
    assert LiteralEnd(name, 1) == 1;
    assert name[0..1] == name;
    assert Matches(name, 1) == [];
  }

  lemma OneName(c: char)
    requires IsNameChar(c)
    ensures StrictName([c], LEGACY_MAX_NODES) == Some([[c]])
  {
    hide Matches;
    var name: string := [c];
    OneMatch(c);
    var m := Match(0, 1, Literal(name));
    assert [m][1..] == [] && StrictGroups([], 1, 1) == Some([]);
    var group: seq<string> := [name];
    assert StrictToken(Literal(name)) == Some(group);
    assert StrictGroups([m], 0, 1) == Some([group] + []);
    assert [group] + [] == [group];
    assert group[1..] == [] && [group][1..] == [] && Names([]) == [""];
    assert [""][1..] == [] && Prefixed(name, []) == [] && name + "" == name;
    assert Prefixed(name, [""]) == [name] + [];
    assert AllPrefixed([], [""]) == [];
    assert AllPrefixed(group, [""]) == [name] + [];
    assert Names([group]) == [name];
    assert !TooMany([], 1, LEGACY_MAX_NODES) && !TooMany([group], 1, LEGACY_MAX_NODES);
  }

  lemma OneTopLevel(c: char)
    requires IsNameChar(c)
    ensures TopLevelNames([c]) == [[c]]
  {
    var name: string := [c];
    assert name[0] == c && !IsSpace(c) && c != ',' && c != '[' && c != ']';
    assert RawParts(name, 1, 0, name) == [name] && "" + [c] == name;
    assert RawParts(name, 0, 0, "") == [name];
    assert Strip(name) == name;
    hide RawParts, Strip;
    assert [name][1..] == [] && StripAll([]) == [];
    assert StripAll([name]) == [name] + [];
  }

  /** A name of one character stands for itself. */
  lemma OneHost(c: char)
    requires IsNameChar(c)
    ensures StrictExpand([c]) == Some([[c]])
  {
    hide StrictName, TopLevelNames;
    var name: string := [c];
    var group: seq<string> := [name];
    OneName(c);
    OneTopLevel(c);
    assert group[1..] == [] && StrictHosts([], LEGACY_MAX_NODES - 1) == Some([]);
    assert StrictHosts(group, LEGACY_MAX_NODES) == Some([name] + []);
    assert [name] + [] == group && name[0] == c && c >= ' ';
    assert ValidHost(name) && NoDuplicates(group) && WithinLimits(name);
    assert StrictAccepted(name) == Some(group);
    assert SortStrings([]) == [] && Insert(name, []) == [name];
    assert SortStrings(group) == group;
    assert !IsNullMarker(name);
  }

  lemma OneNumber(c: char)
    requires IsDigit(c)
    ensures StrictRange([c], LEGACY_MAX_NODES) == Some([[c]]) && StrictRange([c], 1024) == Some([[c]])
  {
    var spec: string := [c];
    var parts: seq<string> := [spec];
    assert spec[0] == c && c != ',' && c != '-';
    assert spec[1..] == "";
    assert SplitOn("", ',') == [""];
    assert [c] + "" == spec && [""][1..] == [];
    assert SplitOn(spec, ',') == [[c] + ""] + [];
    assert SplitOn(spec, ',') == parts;
    assert FirstIndex("", '-') == 0 && FirstIndex(spec, '-') == 1 && spec[..1] == spec;
    assert AllDigits(spec);
    assert parts[1..] == [] && [spec] + [] == parts;
    assert StrictPart(spec, LEGACY_MAX_NODES) == Some(parts) && StrictPart(spec, 1024) == Some(parts);
    assert StrictParts([], LEGACY_MAX_NODES - 1) == Some([]) && StrictParts([], 1023) == Some([]);
  }

  function LenientToken(t: Token): seq<string> {
    match t
    case Literal(text) => [text]
    case Bracket(spec) => LenientParts(SplitOn(spec, ','))
  }

  function LenientGroups(ms: seq<Match>): seq<seq<string>> {
    if ms == [] then [] else [LenientToken(ms[0].token)] + LenientGroups(ms[1..])
  }

  function LenientCount(groups: seq<seq<string>>): nat {
    if groups == [] then 1 else (if groups[0] == [] then 1 else |groups[0]|) * LenientCount(groups[1..])
  }

  function LenientName(name: string): seq<string> {
    var groups := LenientGroups(Matches(name, 0));
    if groups == [] then []
    else if LenientCount(groups) > MAX_EXPANSION then [name]
    else Names(groups)
  }

  function LenientHosts(names: seq<string>): seq<string> {
    if names == [] then [] else LenientName(names[0]) + LenientHosts(names[1..])
  }

  function Expand(expr: string): seq<string> {
    LenientHosts(TopLevelNames(expr))
  }

  // ---------------------------------------------------------------------------
  // Sorting by code points
  // ---------------------------------------------------------------------------

  predicate StringLe(a: string, b: string) {
    a == "" || (b != "" && (a[0] < b[0] || (a[0] == b[0] && StringLe(a[1..], b[1..]))))
  }

  ghost predicate SortedStrings(s: seq<string>) {
    forall i, j :: 0 <= i < j < |s| ==> StringLe(s[i], s[j])
  }

  lemma {:induction false} StringLeTotal(a: string, b: string)
    ensures StringLe(a, b) || StringLe(b, a)
  {
    if a != "" && b != "" {
      StringLeTotal(a[1..], b[1..]);
    }
  }

  lemma {:induction false} StringLeTransitive(a: string, b: string, c: string)
    requires StringLe(a, b) && StringLe(b, c)
    ensures StringLe(a, c)
  {
    if a != "" && a[0] == b[0] == c[0] {
      StringLeTransitive(a[1..], b[1..], c[1..]);
    }
  }

  function Insert(x: string, s: seq<string>): (r: seq<string>)
    ensures multiset(r) == multiset(s) + multiset{x} && |r| == |s| + 1
  {
    if s == [] || StringLe(x, s[0]) then [x] + s
    else assert s == [s[0]] + s[1..]; [s[0]] + Insert(x, s[1..])
  }

  /** `sorted(...)` */
  function SortStrings(s: seq<string>): (r: seq<string>)
    ensures multiset(r) == multiset(s) && |r| == |s|
  {
    if s == [] then [] else assert s == [s[0]] + s[1..]; Insert(s[0], SortStrings(s[1..]))
  }

  lemma {:induction false} InsertSorted(x: string, s: seq<string>)
    requires SortedStrings(s)
    ensures SortedStrings(Insert(x, s))
  {
    if s == [] {
    } else if StringLe(x, s[0]) {
      forall j | 0 <= j < |s| ensures StringLe(x, s[j]) {
        if j > 0 {
          StringLeTransitive(x, s[0], s[j]);
        }
      }
    } else {
      StringLeTotal(x, s[0]);
      var t := Insert(x, s[1..]);
      InsertSorted(x, s[1..]);
      forall j | 0 <= j < |t| ensures StringLe(s[0], t[j]) {
        assert t[j] in multiset(t);
        if t[j] != x {
          assert t[j] in s[1..];
        }
      }
    }
  }

  lemma {:induction false} SortStringsSorted(s: seq<string>)
    ensures SortedStrings(SortStrings(s))
  {
    if s != [] {
      SortStringsSorted(s[1..]);
      InsertSorted(s[0], SortStrings(s[1..]));
    }
  }

  // ---------------------------------------------------------------------------
  // The two expanders, loop by loop
  // ---------------------------------------------------------------------------

  /** The token loop of strict expansion. */
  method StrictTokens(name: string) returns (r: Option<seq<seq<string>>>)
    ensures r == StrictGroups(Matches(name, 0), 0, |name|)
  {
    var groups: seq<seq<string>>, cursor, ms := [], 0, Matches(name, 0);
    ghost var goal := StrictGroups(ms, 0, |name|);
    assert ms[0..] == ms;
    PrependNothing([], goal);
    for i := 0 to |ms|
      invariant cursor >= 0
      invariant goal == Prepend(groups, StrictGroups(ms[i..], cursor, |name|))
    {
      assert ms[i..][0] == ms[i] && ms[i..][1..] == ms[i + 1..];
      if ms[i].start != cursor {
        return None;
      }
      cursor := ms[i].end;
      var values;
      match ms[i].token {
        case Literal(text) =>
          if !AllNameChars(text) {
            return None;
          }
          values := [text];
        case Bracket(spec) =>
          var range := StrictRangeValues(spec, LEGACY_MAX_NODES);
          if range.None? || range.value == [] {
            return None;
          }
          values := range.value;
      }
      PrependTwice(groups, [values], StrictGroups(ms[i + 1..], cursor, |name|));
      groups := groups + [values];
    }
    assert ms[|ms|..] == [];
    PrependNothing(groups, goal);
    if cursor != |name| {
      return None;
    }
    return Some(groups);
  }

  method WithinRoom(groups: seq<seq<string>>, room: int) returns (ok: bool)
    ensures ok == !TooMany(groups, 1, room)
  {
    var total := 1;
    for i := 0 to |groups|
      invariant total >= 0 && TooMany(groups, 1, room) == TooMany(groups[i..], total, room)
    {
      assert groups[i..][0] == groups[i] && groups[i..][1..] == groups[i + 1..];
      total := total * |groups[i]|;
      if total > room {
        return false;
      }
    }
    return true;
  }

  method StrictExpandName(name: string, room: int) returns (r: Option<seq<string>>)
    ensures r == StrictName(name, room)
  {
    var groups := StrictTokens(name);
    if groups.None? || groups.value == [] {
      return None;
    }
    var ok := WithinRoom(groups.value, room);
    if !ok {
      return None;
    }
    return Some(Names(groups.value));
  }

  lemma StrictHostsStep(names: seq<string>, i: nat, hosts: seq<string>)
    requires i < |names|
    ensures var room := LEGACY_MAX_NODES - |hosts|;
      var hs := StrictName(names[i], room);
      Prepend(hosts, StrictHosts(names[i..], room)) ==
        if hs.None? then None
        else Prepend(hosts + hs.value, StrictHosts(names[i + 1..], LEGACY_MAX_NODES - |hosts + hs.value|))
  {
    hide StrictName;
    var room := LEGACY_MAX_NODES - |hosts|;
    var hs := StrictName(names[i], room);
    assert names[i..][0] == names[i] && names[i..][1..] == names[i + 1..];
    if hs.Some? {
      assert LEGACY_MAX_NODES - |hosts + hs.value| == room - |hs.value|;
      PrependTwice(hosts, hs.value, StrictHosts(names[i + 1..], room - |hs.value|));
    }
  }

  method StrictExpandAll(names: seq<string>) returns (r: Option<seq<string>>)
    ensures r == StrictHosts(names, LEGACY_MAX_NODES)
  {
    hide StrictName;
    var hosts: seq<string> := [];
    ghost var goal := StrictHosts(names, LEGACY_MAX_NODES);
    assert names[0..] == names;
    PrependNothing([], goal);
    for i := 0 to |names|
      invariant goal == Prepend(hosts, StrictHosts(names[i..], LEGACY_MAX_NODES - |hosts|))
    {
      StrictHostsStep(names, i, hosts);
      var more := StrictExpandName(names[i], LEGACY_MAX_NODES - |hosts|);
      if more.None? {
        return None;
      }
      hosts := hosts + more.value;
    }
    assert names[|names|..] == [];
    PrependNothing(hosts, goal);
    return Some(hosts);
  }

  method StrictExpandNodes(expr: string) returns (r: Option<seq<string>>)
    ensures r == StrictExpand(expr)
  {
    if IsNullMarker(expr) {
      return Some([]);
    }
    if !WithinLimits(expr) {
      return None;
    }
    var names := SplitTopLevel(expr);
    var hosts := StrictExpandAll(names);
    if hosts.None? || hosts.value == [] || !NoDuplicates(hosts.value)
       || exists i :: 0 <= i < |hosts.value| && !ValidHost(hosts.value[i]) {
      return None;
    }
    return Some(SortStrings(hosts.value));
  }

  method ExpandToken(t: Token) returns (group: seq<string>)
    ensures group == LenientToken(t)
  {
    match t {
      case Literal(text) => group := [text];
      case Bracket(spec) => group := ExpandRangeSpec(spec);
    }
  }

  method ExpandTokens(name: string) returns (groups: seq<seq<string>>)
    ensures groups == LenientGroups(Matches(name, 0))
  {
    hide LenientToken, Matches;
    groups := [];
    var ms := Matches(name, 0);
    for i := 0 to |ms|
      invariant groups + LenientGroups(ms[i..]) == LenientGroups(ms)
    {
      assert ms[i..][0] == ms[i] && ms[i..][1..] == ms[i + 1..];
      var group := ExpandToken(ms[i].token);
      assert groups + ([group] + LenientGroups(ms[i + 1..])) == groups + [group] + LenientGroups(ms[i + 1..]);
      groups := groups + [group];
    }
  }

  lemma MulAssociates(a: int, b: int, c: int)
    ensures a * (b * c) == a * b * c
  {
  }

  method ProductOfSizes(groups: seq<seq<string>>) returns (total: nat)
    ensures total == LenientCount(groups)
  {
    total := 1;
    for k := 0 to |groups|
      invariant total * LenientCount(groups[k..]) == LenientCount(groups)
    {
      var size := if groups[k] == [] then 1 else |groups[k]|;
      assert groups[k..][0] == groups[k] && groups[k..][1..] == groups[k + 1..];
      MulAssociates(total, size, LenientCount(groups[k + 1..]));
      total := total * size;
    }
  }

  method ExpandName(name: string) returns (hosts: seq<string>)
    ensures hosts == LenientName(name)
  {
    var groups := ExpandTokens(name);
    if groups == [] {
      return [];
    }
    var total := ProductOfSizes(groups);
    if total > MAX_EXPANSION {
      return [name];
    }
    return Names(groups);
  }

  method ExpandNodelist(expr: string) returns (hosts: seq<string>)
    ensures hosts == Expand(expr)
  {
    hide LenientHosts, LenientName, TopLevelNames;
    hosts := [];
    var names := SplitTopLevel(expr);
    for i := 0 to |names|
      invariant hosts + LenientHosts(names[i..]) == LenientHosts(names)
    {
      LenientStep(names, i);
      var more := ExpandName(names[i]);
      assert hosts + (more + LenientHosts(names[i + 1..])) == hosts + more + LenientHosts(names[i + 1..]);
      hosts := hosts + more;
    }
    NoNames(names[|names|..]);
    assert hosts + [] == hosts;
  }

  lemma LenientStep(names: seq<string>, i: nat)
    requires i < |names|
    ensures LenientHosts(names[i..]) == LenientName(names[i]) + LenientHosts(names[i + 1..])
  {
    hide LenientName;
    assert names[i..][0] == names[i] && names[i..][1..] == names[i + 1..];
  }

  lemma NoNames(names: seq<string>)
    requires names == []
    ensures LenientHosts(names) == []
  {
  }

  // ---------------------------------------------------------------------------
  // The expanders agree
  // ---------------------------------------------------------------------------

  lemma {:induction false} StripTight(s: string)
    requires s != "" ==> !IsSpace(s[0]) && !IsSpace(s[|s| - 1])
    ensures Strip(s) == s
  {
  }

  lemma PartsAgree(part: string, room: int)
    requires room <= LEGACY_MAX_NODES && StrictPart(part, room).Some?
    ensures StrictPart(part, room).value == LenientPart(part)
  {
    var cut := FirstIndex(part, '-');
    assert part[..cut][0] == part[0];
    if cut < |part| {
      var end := part[cut + 1..];
      assert end[|end| - 1] == part[|part| - 1];
    } else {
      assert part[..cut] == part;
    }
    StripTight(part);
  }

  lemma {:induction false} RangesAgree(parts: seq<string>, room: int)
    requires room <= LEGACY_MAX_NODES && StrictParts(parts, room).Some?
    ensures StrictParts(parts, room).value == LenientParts(parts)
  {
    hide StrictPart, LenientPart;
    if parts != [] {
      PartsAgree(parts[0], room);
      RangesAgree(parts[1..], room - |StrictPart(parts[0], room).value|);
    }
  }

  lemma TokensAgree(t: Token)
    requires StrictToken(t).Some?
    ensures StrictToken(t).value == LenientToken(t) != []
  {
    if t.Bracket? {
      RangesAgree(SplitOn(t.spec, ','), LEGACY_MAX_NODES);
    }
  }

  lemma {:induction false} GroupsAgree(ms: seq<Match>, cursor: nat, end: nat)
    requires StrictGroups(ms, cursor, end).Some?
    ensures StrictGroups(ms, cursor, end).value == LenientGroups(ms)
    ensures forall g :: g in LenientGroups(ms) ==> g != []
  {
    hide StrictToken, LenientToken;
    if ms != [] {
      TokensAgree(ms[0].token);
      GroupsAgree(ms[1..], ms[0].end, end);
    }
  }

  lemma {:induction false} CountsAgree(groups: seq<seq<string>>)
    requires forall g :: g in groups ==> g != []
    ensures LenientCount(groups) == Count(groups) >= 1
  {
    if groups != [] {
      assert groups[0] in groups && forall g :: g in groups[1..] ==> g in groups;
      CountsAgree(groups[1..]);
      ProductIsPositive(|groups[0]|, Count(groups[1..]));
    }
  }

  lemma ProductIsPositive(a: nat, b: nat)
    requires a >= 1 && b >= 1
    ensures a * b >= 1
  {
  }

  lemma {:induction false} WithinRoomCounts(groups: seq<seq<string>>, total: nat, room: int)
    requires total <= room && !TooMany(groups, total, room)
    ensures total * Count(groups) <= room
    decreases |groups|
  {
    if groups != [] {
      WithinRoomCounts(groups[1..], total * |groups[0]|, room);
      MulAssociates(total, |groups[0]|, Count(groups[1..]));
    }
  }

  lemma NamesAgree(name: string, room: int)
    requires room <= LEGACY_MAX_NODES && StrictName(name, room).Some?
    ensures StrictName(name, room).value == LenientName(name) && |LenientName(name)| <= room
  {
    hide Matches, Names, StrictGroups, LenientGroups;
    var ms := Matches(name, 0);
    GroupsAgree(ms, 0, |name|);
    var groups := LenientGroups(ms);
    CountsAgree(groups);
    if room >= 1 {
      WithinRoomCounts(groups, 1, room);
    }
  }

  lemma {:induction false} HostsAgree(names: seq<string>, room: int)
    requires 0 <= room <= LEGACY_MAX_NODES && StrictHosts(names, room).Some?
    ensures StrictHosts(names, room).value == LenientHosts(names) && |LenientHosts(names)| <= room
  {
    hide StrictName, LenientName;
    if names != [] {
      NamesAgree(names[0], room);
      HostsAgree(names[1..], room - |StrictName(names[0], room).value|);
    }
  }

  /** Whenever strict expansion accepts an expression that is not a null marker,
      its result is the sorted, duplicate-free permutation of the lenient one,
      text for text, with between 1 and 4096 well-formed hosts. */
  lemma ExpandersAgree(expr: string)
    requires !IsNullMarker(expr) && StrictExpand(expr).Some?
    ensures var hosts := StrictExpand(expr).value;
      && multiset(hosts) == multiset(Expand(expr))
      && SortedStrings(hosts) && NoDuplicates(hosts)
      && 1 <= |hosts| <= LEGACY_MAX_NODES
      && forall h :: h in hosts ==> ValidHost(h)
  {
    var accepted := StrictAccepted(expr).value;
    HostsAgree(TopLevelNames(expr), LEGACY_MAX_NODES);
    SortStringsSorted(accepted);
    var hosts := SortStrings(accepted);
    NoDuplicatesPermutes(accepted, hosts);
    forall h | h in hosts ensures ValidHost(h) {
      assert h in multiset(accepted);
    }
  }

  lemma NoDuplicatesPermutes(a: seq<string>, b: seq<string>)
    requires multiset(a) == multiset(b) && NoDuplicates(a)
    ensures NoDuplicates(b)
  {
    CountsOnce(a);
    forall i, j | 0 <= i < j < |b| ensures b[i] != b[j] {
      if b[i] == b[j] {
        CountsTwice(b, i, j);
      }
    }
  }

  lemma {:induction false} CountsOnce(a: seq<string>)
    requires NoDuplicates(a)
    ensures forall x :: x in a ==> multiset(a)[x] == 1
    decreases |a|
  {
    if a != [] {
      CountsOnce(a[1..]);
      assert a == [a[0]] + a[1..];
      assert a[0] !in a[1..];
    }
  }

  lemma CountsTwice(b: seq<string>, i: nat, j: nat)
    requires i < j < |b| && b[i] == b[j]
    ensures multiset(b)[b[i]] >= 2
  {
    assert b == b[..i] + [b[i]] + b[i + 1..j] + [b[j]] + b[j + 1..];
  }

}
