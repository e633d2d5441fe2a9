/**
Text made of `key=value` lines: printing it, cutting it to a size, splitting it
into lines again and looking a key up.
*/
module DetailText {
  import Nodelist

  /** `str.splitlines` breaks lines at these; all of them are white space. */
  predicate IsBreak(c: char) {
    '\n' <= c <= '\r' || '\U{1C}' <= c <= '\U{1E}' || c == '\U{85}' || c == '\U{2028}' || c == '\U{2029}'
  }

  /** No character of the text ends a line. */
  ghost predicate OneLine(s: string) {
    forall i :: 0 <= i < |s| ==> !IsBreak(s[i])
  }

  predicate KeyChar(c: char) {
    'A' <= c <= 'Z' || 'a' <= c <= 'z' || c == '/'
  }

  ghost predicate PlainKey(s: string) {
    forall i :: 0 <= i < |s| ==> KeyChar(s[i])
  }

  type Field = (string, string)

  function Line(f: Field): string {
    f.0 + "=" + f.1
  }

  /** The printed lines: fields without a value are left out. */
  function Lines(fs: seq<Field>): seq<string> {
    if fs == [] then [] else (if fs[0].1 == "" then [] else [Line(fs[0])]) + Lines(fs[1..])
  }

  function Cut(s: string, n: nat): string {
    if |s| <= n then s else s[..n]
  }

  function Print(fs: seq<Field>, n: nat): string {
    Cut(Nodelist.Join(Lines(fs), '\n'), n)
  }

  function BreakAt(s: string, i: nat): (e: nat)
    requires i <= |s|
    ensures i <= e <= |s| && (e < |s| ==> IsBreak(s[e])) && forall k :: i <= k < e ==> !IsBreak(s[k])
    decreases |s| - i
  {
    if i == |s| || IsBreak(s[i]) then i else BreakAt(s, i + 1)
  }

  /** `str.splitlines` */
  function SplitLines(s: string): seq<string>
    decreases |s|
  {
    if s == "" then []
    else
      var e := BreakAt(s, 0);
      if e == |s| then [s]
      else [s[..e]] + SplitLines(s[e + (if s[e] == '\r' && e + 1 < |s| && s[e + 1] == '\n' then 2 else 1)..])
  }

  predicate StartsWith(s: string, prefix: string) {
    |prefix| <= |s| && s[..|prefix|] == prefix
  }

  /** What follows the prefix in the first line that has it. */
  function FirstWithPrefix(lines: seq<string>, prefix: string): string {
    if lines == [] then ""
    else if StartsWith(lines[0], prefix) then lines[0][|prefix|..]
    else FirstWithPrefix(lines[1..], prefix)
  }

  /** Looking a field up by name in a published text. */
  function Lookup(text: string, name: string): string {
    FirstWithPrefix(SplitLines(text), name + "=")
  }

  // ---------------------------------------------------------------------------
  // Splitting the cut text
  // ---------------------------------------------------------------------------

  /** The lines that are left when the joined text is cut after `n` characters. */
  function CutLines(lines: seq<string>, n: nat): seq<string> {
    if lines == [] || n == 0 then []
    else if n <= |lines[0]| then [lines[0][..n]]
    else [lines[0]] + CutLines(lines[1..], n - |lines[0]| - 1)
  }

  ghost predicate ProperLine(l: string) {
    l != "" && OneLine(l)
  }

  ghost predicate ProperLines(lines: seq<string>) {
    forall i :: 0 <= i < |lines| ==> ProperLine(lines[i])
  }

  lemma OneLineSplits(s: string)
    requires ProperLine(s)
    ensures SplitLines(s) == [s]
  {
  }

  lemma LineThenRest(l: string, rest: string)
    requires ProperLine(l)
    ensures SplitLines(l + ['\n'] + rest) == [l] + SplitLines(rest)
  {
    var s := l + ['\n'] + rest;
    var e := BreakAt(s, 0);
    assert s[|l|] == '\n' && forall i :: 0 <= i < |l| ==> s[i] == l[i];
    assert e == |l|;
    assert s[..e] == l && s[e + 1..] == rest;
  }

  /** `splitlines` undoes the join, up to the cut. */
  lemma {:induction false} SplitCutJoin(lines: seq<string>, n: nat)
    requires ProperLines(lines)
    ensures SplitLines(Cut(Nodelist.Join(lines, '\n'), n)) == CutLines(lines, n)
    decreases |lines|
  {
    hide ProperLine, SplitLines;
    if lines == [] || n == 0 {
      NothingSplits();
    } else {
      var l, text := lines[0], Nodelist.Join(lines, '\n');
      if n <= |l| {
        assert Cut(text, n) == l[..n];
        CutProper(l, n);
        OneLineSplits(l[..n]);
      } else if |lines| == 1 {
        assert Cut(text, n) == l && lines[1..] == [];
        OneLineSplits(l);
      } else {
        var rest := Nodelist.Join(lines[1..], '\n');
        var m := n - |l| - 1;
        assert text == l + ['\n'] + rest;
        assert Cut(text, n) == l + ['\n'] + Cut(rest, m);
        LineThenRest(l, Cut(rest, m));
        SplitCutJoin(lines[1..], m);
      }
    }
  }

  lemma NothingSplits()
    ensures SplitLines("") == []
  {
  }

  lemma CutProper(l: string, n: nat)
    requires ProperLine(l) && 0 < n <= |l|
    ensures ProperLine(l[..n])
  {
  }

  // ---------------------------------------------------------------------------
  // Looking keys up
  // ---------------------------------------------------------------------------

  /** A piece of a line answers to `name=` only if the line's key is `name`. */
  lemma PrefixNamesKey(f: Field, m: nat, name: string)
    requires PlainKey(f.0) && '=' !in name && m <= |Line(f)| && StartsWith(Line(f)[..m], name + "=")
    ensures name == f.0
  {
    var line, prefix := Line(f), name + "=";
    assert prefix == line[..|prefix|];
    assert forall i :: 0 <= i < |prefix| ==> prefix[i] == line[i];
    assert line[|f.0|] == '=' && prefix[|name|] == '=';
    assert forall i :: 0 <= i < |f.0| ==> line[i] == f.0[i] && KeyChar(line[i]);
    assert forall i :: 0 <= i < |name| ==> line[i] == name[i] && name[i] != '=';
    assert |name| == |f.0|;
    assert name == line[..|name|] && f.0 == line[..|f.0|];
  }

  /** The length of the text up to the end of the first printed line for `name`. */
  function EndOfLine(fs: seq<Field>, name: string): nat {
    if fs == [] then 0
    else if fs[0].0 == name then |Line(fs[0])|
    else (if fs[0].1 == "" then 0 else |Line(fs[0])| + 1) + EndOfLine(fs[1..], name)
  }

  predicate HasKey(fs: seq<Field>, name: string) {
    exists i :: 0 <= i < |fs| && fs[i].0 == name
  }

  /** Keys are plain, and every field called `name` has the value `v`. */
  ghost predicate Consistent(fs: seq<Field>, name: string, v: string) {
    && '=' !in name
    && forall i :: 0 <= i < |fs| ==> PlainKey(fs[i].0) && (fs[i].0 == name ==> fs[i].1 == v)
  }

  /** What the first printed line, cut after `n` characters, answers. */
  lemma HeadAnswers(f: Field, n: nat, name: string)
    requires PlainKey(f.0) && '=' !in name
    ensures var l, prefix := Line(f), name + "=";
      var piece := Cut(l, n);
      && (StartsWith(piece, prefix) ==> f.0 == name && StartsWith(f.1, piece[|prefix|..]))
      && (f.0 == name && |l| <= n ==> StartsWith(piece, prefix) && piece[|prefix|..] == f.1)
  {
    var l, prefix := Line(f), name + "=";
    var m := if n < |l| then n else |l|;
    assert Cut(l, n) == l[..m];
    if StartsWith(l[..m], prefix) {
      PrefixNamesKey(f, m, name);
      assert l[|prefix|..] == f.1;
      assert l[..m][|prefix|..] == f.1[..m - |prefix|];
    }
    if f.0 == name && |l| <= n {
      assert l[..m] == l && l[..|prefix|] == prefix && l[|prefix|..] == f.1;
    }
  }

  /** How cutting and searching go on past the first line. */
  lemma FirstLineStep(l: string, rest: seq<string>, n: nat, prefix: string)
    requires l != "" && prefix != ""
    ensures var piece := Cut(l, n);
      FirstWithPrefix(CutLines([l] + rest, n), prefix) ==
        if StartsWith(piece, prefix) then piece[|prefix|..]
        else if n <= |l| then ""
        else FirstWithPrefix(CutLines(rest, n - |l| - 1), prefix)
  {
    hide FirstWithPrefix, CutLines;
    CutFirst(l, rest, n);
    NoLines(prefix);
    if n == 0 {
    } else if n <= |l| {
      OneLineMore(l[..n], [], prefix);
    } else {
      OneLineMore(l, CutLines(rest, n - |l| - 1), prefix);
    }
  }

  lemma CutFirst(l: string, rest: seq<string>, n: nat)
    ensures CutLines([l] + rest, n) ==
      if n == 0 then []
      else if n <= |l| then [l[..n]] + []
      else [l] + CutLines(rest, n - |l| - 1)
  {
    var all := [l] + rest;
    assert all[0] == l && all[1..] == rest;
  }

  lemma NoLines(prefix: string)
    ensures FirstWithPrefix([], prefix) == ""
  {
  }

  lemma OneLineMore(l: string, rest: seq<string>, prefix: string)
    ensures FirstWithPrefix([l] + rest, prefix) ==
      if StartsWith(l, prefix) then l[|prefix|..] else FirstWithPrefix(rest, prefix)
  {
    assert ([l] + rest)[1..] == rest;
  }

  lemma KeyInRest(fs: seq<Field>, name: string)
    requires fs != []
    ensures HasKey(fs, name) && fs[0].0 != name ==> HasKey(fs[1..], name)
  {
    if HasKey(fs, name) && fs[0].0 != name {
      var i :| 0 <= i < |fs| && fs[i].0 == name;
      assert fs[1..][i - 1].0 == name;
    }
  }

  /** Looking a name up among the cut lines gives a prefix of its value, all of
      it when its line ends before the cut. */
  lemma {:induction false} CutLinesAnswer(fs: seq<Field>, n: nat, name: string, v: string)
    requires Consistent(fs, name, v)
    ensures var r := FirstWithPrefix(CutLines(Lines(fs), n), name + "=");
      StartsWith(v, r) && (HasKey(fs, name) && EndOfLine(fs, name) <= n ==> r == v)
    decreases |fs|
  {
    if fs != [] {
      hide CutLines, FirstWithPrefix, PlainKey;
      var f, rest := fs[0], fs[1..];
      KeyInRest(fs, name);
      if f.1 == "" {
        assert Lines(fs) == Lines(rest);
        CutLinesAnswer(rest, n, name, v);
      } else {
        HeadAnswers(f, n, name);
        FirstLineStep(Line(f), Lines(rest), n, name + "=");
        hide Lines;
        assert Lines(fs) == [Line(f)] + Lines(rest) by { LinesStep(fs); }
        if n > |Line(f)| {
          CutLinesAnswer(rest, n - |Line(f)| - 1, name, v);
        }
      }
    }
  }

  lemma LinesStep(fs: seq<Field>)
    requires fs != [] && fs[0].1 != ""
    ensures Lines(fs) == [Line(fs[0])] + Lines(fs[1..])
  {
  }

  ghost predicate Printable(fs: seq<Field>) {
    forall i :: 0 <= i < |fs| ==> PlainKey(fs[i].0) && OneLine(fs[i].1)
  }

  lemma LineIsProper(f: Field)
    requires PlainKey(f.0) && OneLine(f.1)
    ensures ProperLine(Line(f))
  {
    var l := Line(f);
    forall i | 0 <= i < |l| ensures !IsBreak(l[i]) {
      if i < |f.0| {
        assert KeyChar(f.0[i]);
      } else if i > |f.0| {
        assert !IsBreak(f.1[i - |f.0| - 1]);
      }
    }
  }

  lemma {:induction false} LinesAreProper(fs: seq<Field>)
    requires Printable(fs)
    ensures ProperLines(Lines(fs))
  {
    hide PlainKey, OneLine, ProperLine;
    if fs != [] {
      LinesAreProper(fs[1..]);
      LineIsProper(fs[0]);
    }
  }

  /** Looking a name up in the printed text: fields that share it must agree. */
  lemma LookupAnswers(fs: seq<Field>, n: nat, name: string, v: string)
    requires Printable(fs) && Consistent(fs, name, v)
    ensures StartsWith(v, Lookup(Print(fs, n), name))
    ensures HasKey(fs, name) && EndOfLine(fs, name) <= n ==> Lookup(Print(fs, n), name) == v
  {
    LinesAreProper(fs);
    SplitCutJoin(Lines(fs), n);
    CutLinesAnswer(fs, n, name, v);
    hide Lines, CutLines, SplitLines, FirstWithPrefix, EndOfLine, HasKey;
  }
}
