/**
`sgpu logs -f` over the shared mirror: the mirror is a bounded tail that is
replaced as a whole, so the follower prints what comes after the largest
overlap between the end of the old tail and the start of the new one.
*/
module Overlap {

  newtype Byte = x: int | 0 <= x < 256
  type Bytes = seq<Byte>

  /** The last `k` bytes of `previous` are the first `k` of `current`. */
  predicate IsOverlap(previous: Bytes, current: Bytes, k: nat) {
    k <= |previous| && k <= |current| && previous[|previous| - k..] == current[..k]
  }

  ghost predicate IsLargestOverlap(previous: Bytes, current: Bytes, k: nat) {
    IsOverlap(previous, current, k) && forall m: nat :: IsOverlap(previous, current, m) ==> m <= k
  }

  // ---------------------------------------------------------------------------
  // Borders: the theory behind the prefix function
  // ---------------------------------------------------------------------------

  /** `k` symbols at the start of `s` recur at the end of `s[..i + 1]`, properly. */
  predicate IsBorder(s: seq<int>, i: nat, k: nat)
    requires i < |s|
  {
    k <= i && s[..k] == s[i + 1 - k..i + 1]
  }

  ghost predicate IsLongestBorder(s: seq<int>, i: nat, k: nat)
    requires i < |s|
  {
    IsBorder(s, i, k) && forall m: nat :: IsBorder(s, i, m) ==> m <= k
  }

  lemma BorderIsProper(s: seq<int>, i: nat, k: nat)
    requires i < |s| && IsBorder(s, i, k)
    ensures k <= i
  {
  }

  /** A border grows from a border one shorter, one position earlier. */
  lemma BorderStep(s: seq<int>, i: nat, k: nat)
    requires 0 < i < |s|
    ensures IsBorder(s, i, k + 1) <==> IsBorder(s, i - 1, k) && s[k] == s[i]
  {
    if k < i {
      assert s[..k + 1] == s[..k] + [s[k]];
      assert s[i - k..i + 1] == s[i - k..i] + [s[i]];
      if s[..k + 1] == s[i - k..i + 1] {
        assert s[..k] == s[..k + 1][..k];
        assert s[i - k..i] == s[i - k..i + 1][..k];
        assert s[k] == s[..k + 1][k] == s[i - k..i + 1][k] == s[i];
      }
    }
  }

  /** Below a border `j`, the borders of the text are those of its first `j` symbols. */
  lemma BorderOfBorder(s: seq<int>, i: nat, j: nat, k: nat)
    requires i < |s| && 0 < j && k < j && IsBorder(s, i, j)
    ensures IsBorder(s, i, k) <==> IsBorder(s, j - 1, k)
  {
    assert s[j - k..j] == s[..j][j - k..];
    assert s[i + 1 - k..i + 1] == s[i + 1 - j..i + 1][j - k..];
  }

  // ---------------------------------------------------------------------------
  // Borders of `current + sentinel + previous` are overlaps
  // ---------------------------------------------------------------------------

  const SENTINEL := -1

  function Symbols(b: Bytes): (s: seq<int>)
    ensures |s| == |b|
  {
    seq(|b|, i requires 0 <= i < |b| => b[i] as int)
  }

  /** At most the last `n` bytes. */
  function Tail(b: Bytes, n: nat): Bytes {
    if n < |b| then b[|b| - n..] else b
  }

  function Joined(previous: Bytes, current: Bytes): seq<int> {
    Symbols(current) + [SENTINEL] + Symbols(Tail(previous, |current|))
  }

  lemma BorderAt(s: seq<int>, i: nat, k: nat, d: nat)
    requires i < |s| && d < k && IsBorder(s, i, k)
    ensures s[d] == s[i + 1 - k + d]
  {
    assert s[..k][d] == s[i + 1 - k..i + 1][d];
  }

  lemma JoinedAt(previous: Bytes, current: Bytes)
    ensures var s, t := Joined(previous, current), Tail(previous, |current|);
      && |s| == |current| + 1 + |t|
      && (forall i :: 0 <= i < |current| ==> s[i] == current[i] as int)
      && s[|current|] == SENTINEL
      && (forall i :: |current| < i < |s| ==> s[i] == t[i - |current| - 1] as int)
  {
  }

  /** The sentinel occurs once, so no border crosses it. */
  lemma BorderStopsAtSentinel(previous: Bytes, current: Bytes, k: nat)
    requires var s := Joined(previous, current); IsBorder(s, |s| - 1, k)
    ensures k <= |current| && k <= |Tail(previous, |current|)|
  {
    var s, c := Joined(previous, current), |current|;
    var d := if k > c then c else c + k - |s|;
    if 0 <= d < k {
      BorderAt(s, |s| - 1, k, d);
    }
    JoinedAt(previous, current);
  }

  lemma BorderIsOverlap(previous: Bytes, current: Bytes, k: nat)
    requires var s := Joined(previous, current); IsBorder(s, |s| - 1, k)
    ensures IsOverlap(previous, current, k)
  {
    var s, t := Joined(previous, current), Tail(previous, |current|);
    BorderStopsAtSentinel(previous, current, k);
    JoinedAt(previous, current);
    forall i | 0 <= i < k ensures current[i] == previous[|previous| - k + i] {
      BorderAt(s, |s| - 1, k, i);
    }
  }

  lemma OverlapIsBorder(previous: Bytes, current: Bytes, k: nat)
    requires IsOverlap(previous, current, k)
    ensures var s := Joined(previous, current); IsBorder(s, |s| - 1, k)
  {
    var s := Joined(previous, current);
    JoinedAt(previous, current);
    hide Joined;
    forall i | 0 <= i < k ensures s[i] == s[|s| - k + i] {
      assert current[..k][i] == previous[|previous| - k..][i];
    }
  }

  // ---------------------------------------------------------------------------
  // The algorithm
  // ---------------------------------------------------------------------------

  /** No border at `i` is longer than one more than `j`. */
  ghost predicate Bounds(s: seq<int>, i: nat, j: nat) {
    0 < i < |s| && forall m: nat :: IsBorder(s, i - 1, m) && s[m] == s[i] ==> m <= j
  }

  lemma Bounded(s: seq<int>, i: nat, j: nat)
    requires 0 < i < |s| && IsLongestBorder(s, i - 1, j)
    ensures Bounds(s, i, j)
  {
  }

  /** When the border `j` does not go on, its own longest border is next. */
  lemma FallBack(s: seq<int>, i: nat, j: nat, next: nat)
    requires 0 < i < |s| && 0 < j && IsBorder(s, i - 1, j) && Bounds(s, i, j) && s[i] != s[j]
    requires IsLongestBorder(s, j - 1, next)
    ensures next < j && IsBorder(s, i - 1, next) && Bounds(s, i, next)
  {
    BorderIsProper(s, j - 1, next);
    hide IsBorder;
    assert Bounds(s, i, next) by {
      hide IsLongestBorder;
      forall m: nat | IsBorder(s, i - 1, m) && s[m] == s[i] ensures m <= next {
        FallBackBounds(s, i, j, next, m);
      }
    }
    assert IsBorder(s, i - 1, next) by {
      hide Bounds;
      BorderOfBorder(s, i - 1, j, next);
    }
  }

  lemma FallBackBounds(s: seq<int>, i: nat, j: nat, next: nat, m: nat)
    requires 0 < i < |s| && 0 < j && IsBorder(s, i - 1, j) && Bounds(s, i, j) && s[i] != s[j]
    requires IsLongestBorder(s, j - 1, next)
    requires IsBorder(s, i - 1, m) && s[m] == s[i]
    ensures m <= next
  {
    hide IsBorder;
    assert m <= j;
    hide Bounds;
    BorderOfBorder(s, i - 1, j, m);
  }

  lemma GoesOn(s: seq<int>, i: nat, j: nat)
    requires 0 < i < |s| && IsBorder(s, i - 1, j) && Bounds(s, i, j) && (j == 0 || s[i] == s[j])
    ensures IsLongestBorder(s, i, if s[i] == s[j] then j + 1 else j)
  {
    forall m: nat | IsBorder(s, i, m) ensures m <= if s[i] == s[j] then j + 1 else 0 {
      if m > 0 {
        BorderStep(s, i, m - 1);
      }
    }
    BorderStep(s, i, j);
  }

  /** The inner loop: from the longest border at `i - 1` to the one at `i`.
      `turns` counts its iterations. */
  method ExtendBorder(sequence: seq<int>, prefix: array<nat>, i: nat) returns (j: nat, ghost turns: nat)
    requires 0 < i < |sequence| == prefix.Length
    requires forall m :: 0 <= m < i ==> IsLongestBorder(sequence, m, prefix[m])
    ensures IsLongestBorder(sequence, i, j)
    ensures turns + j <= prefix[i - 1] + 1
  {
    hide Bounds;
    j, turns := prefix[i - 1], 0;
    Bounded(sequence, i, j);
    while j > 0 && sequence[i] != sequence[j]
      invariant IsBorder(sequence, i - 1, j) && Bounds(sequence, i, j)
      invariant turns + j <= prefix[i - 1]
    {
      FallBack(sequence, i, j, prefix[j - 1]);
      j := prefix[j - 1];
      turns := turns + 1;
    }
    GoesOn(sequence, i, j);
    if sequence[i] == sequence[j] {
      j := j + 1;
    }
  }

  lemma FirstBorder(s: seq<int>)
    requires s != []
    ensures IsLongestBorder(s, 0, 0)
  {
  }

  lemma NothingOverlaps(previous: Bytes, current: Bytes)
    requires previous == [] || current == []
    ensures IsLargestOverlap(previous, current, 0)
  {
  }

  lemma LongestIsLargest(previous: Bytes, current: Bytes, k: nat)
    requires var s := Joined(previous, current); IsLongestBorder(s, |s| - 1, k)
    ensures IsLargestOverlap(previous, current, k) && k <= |current|
  {
    hide Joined, IsBorder;
    BorderIsOverlap(previous, current, k);
    forall m: nat | IsOverlap(previous, current, m) ensures m <= k {
      OverlapIsBorder(previous, current, m);
    }
  }

  /** The largest overlap; `work` counts the turns of the inner loop. */
  method SuffixPrefixOverlap(previous: Bytes, current: Bytes) returns (k: nat, ghost work: nat)
    ensures IsLargestOverlap(previous, current, k)
    ensures work <= |Joined(previous, current)|
  {
    hide IsLongestBorder, IsLargestOverlap;
    work := 0;
    if previous == [] || current == [] {
      NothingOverlaps(previous, current);
      return 0, 0;
    }
    var sequence := Joined(previous, current);
    var n := |sequence|;
    var prefix := new nat[n](_ => 0);
    FirstBorder(sequence);
    for i := 1 to n
      invariant forall m :: 0 <= m < i ==> IsLongestBorder(sequence, m, prefix[m])
      invariant work + prefix[i - 1] <= i - 1
    {
      ghost var turns;
      var j;
      j, turns := ExtendBorder(sequence, prefix, i);
      prefix[i] := j;
      work := work + turns;
    }
    LongestIsLargest(previous, current, prefix[n - 1]);
    k := if prefix[n - 1] < |current| then prefix[n - 1] else |current|;
  }

  // ---------------------------------------------------------------------------
  // What printing `current[k..]` means for the reader
  // ---------------------------------------------------------------------------

  predicate EndsWith(s: Bytes, suffix: Bytes) {
    |suffix| <= |s| && s[|s| - |suffix|..] == suffix
  }

  /** `previous + current[k..]` is the shortest extension of `previous` that ends in `current`. */
  lemma ShortestExtension(previous: Bytes, current: Bytes, k: nat, other: Bytes)
    requires IsLargestOverlap(previous, current, k)
    ensures EndsWith(previous + current[k..], current)
    ensures previous <= other && EndsWith(other, current) ==> |previous + current[k..]| <= |other|
  {
    var s := previous + current[k..];
    assert s[|s| - |current|..] == previous[|previous| - k..] + current[k..];
    assert current[..k] + current[k..] == current;
    var extra := |other| - |previous|;
    if previous <= other && EndsWith(other, current) && 0 <= extra <= |current| {
      var m := |current| - extra;
      assert current[..m] == other[|other| - |current|..][..m] == other[|previous| - m..|previous|];
      assert previous == other[..|previous|];
      assert previous[|previous| - m..] == other[|previous| - m..|previous|];
      assert IsOverlap(previous, current, m);
    }
  }

  /** The mirror of a log that holds `log` so far: its last `cap` bytes. */
  function Mirror(log: Bytes, cap: nat): Bytes {
    Tail(log, cap)
  }

  lemma MirrorIsSlice(log: Bytes, upto: nat, cap: nat)
    requires upto <= |log|
    ensures var m := Mirror(log[..upto], cap); |m| <= upto && m == log[upto - |m|..upto]
  {
  }

  /** The repetition that comes from the log itself is an overlap. */
  lemma TrueOverlap(log: Bytes, before: nat, after: nat, cap: nat)
    requires before <= after <= |log|
    requires after - before <= |Mirror(log[..after], cap)|
    ensures var current := Mirror(log[..after], cap);
      IsOverlap(Mirror(log[..before], cap), current, |current| - (after - before))
  {
    var was, current := Mirror(log[..before], cap), Mirror(log[..after], cap);
    MirrorIsSlice(log, before, cap);
    MirrorIsSlice(log, after, cap);
    var m := |current| - (after - before);
    assert current[..m] == log[after - |current|..before];
    assert was[|was| - m..] == log[before - m..before];
  }

  /** When the log only grew, every byte printed for a new mirror is one the log
      gained since the old one, in order; nothing already shown is repeated. */
  lemma PrintsOnlyNewBytes(log: Bytes, before: nat, after: nat, cap: nat, k: nat)
    requires before <= after <= |log|
    requires IsLargestOverlap(Mirror(log[..before], cap), Mirror(log[..after], cap), k)
    ensures var current := Mirror(log[..after], cap);
      && |current[k..]| <= after - before
      && current[k..] == log[after - |current[k..]|..after]
  {
    var was, current := Mirror(log[..before], cap), Mirror(log[..after], cap);
    MirrorIsSlice(log, after, cap);
    OverlapFits(was, current, k);
    hide Mirror, IsOverlap;
    EndOfSlice(log, after, |current|, k);
    if after - before <= |current| {
      TrueOverlap(log, before, after, cap);
    }
  }

  lemma OverlapFits(previous: Bytes, current: Bytes, k: nat)
    requires IsOverlap(previous, current, k)
    ensures k <= |current|
  {
  }

  lemma EndOfSlice(log: Bytes, upto: nat, n: nat, k: nat)
    requires k <= n <= upto <= |log|
    ensures log[upto - n..upto][k..] == log[upto - (n - k)..upto]
  {
  }

  /** It prints all of the new bytes exactly when the mirror still reaches back
      to the old end and the repeated part is not longer than it really was. */
  lemma PrintsAllNewBytes(log: Bytes, before: nat, after: nat, cap: nat, k: nat)
    requires before <= after <= |log|
    requires IsLargestOverlap(Mirror(log[..before], cap), Mirror(log[..after], cap), k)
    ensures var current := Mirror(log[..after], cap);
      current[k..] == log[before..after] <==>
        after - before <= |current|
        && forall m: nat :: |current| - (after - before) < m ==> !IsOverlap(Mirror(log[..before], cap), current, m)
  {
    PrintsOnlyNewBytes(log, before, after, cap, k);
    var current := Mirror(log[..after], cap);
    if after - before <= |current| && |current[k..]| < after - before {
      assert IsOverlap(Mirror(log[..before], cap), current, k);
    }
  }

  /** A log of equal bytes shows that new bytes can be taken for old ones. */
  lemma RepeatedBytesAreSwallowed(log: Bytes)
    requires log == [7, 7, 7]
    ensures IsLargestOverlap(Mirror(log[..2], 2), Mirror(log[..3], 2), 2)
  {
    assert Mirror(log[..2], 2) == Mirror(log[..3], 2) == log[..2];
  }

  // ---------------------------------------------------------------------------
  // The follow loop
  // ---------------------------------------------------------------------------

  /** One look at the followed path: its (device, inode) and its bytes. */
  datatype Poll = Missing | Present(signature: nat, bytes: Bytes)

  /** A file that is only ever appended to. */
  ghost predicate AppendOnly(polls: seq<Poll>) {
    forall i, j :: 0 <= i < j < |polls| && polls[i].Present? && polls[j].Present? ==> polls[i].bytes <= polls[j].bytes
  }

  /** The last poll that found the file. */
  function LastSeen(first: Poll, polls: seq<Poll>): (last: Poll)
    ensures first.Present? ==> last.Present?
  {
    if polls == [] then first
    else if polls[|polls| - 1].Present? then polls[|polls| - 1]
    else LastSeen(first, polls[..|polls| - 1])
  }

  /** The first poll that finds the file finds the file the follower started from. */
  predicate StartsUnreplaced(first: Poll, polls: seq<Poll>)
    requires first.Present?
  {
    polls != [] &&
    if polls[0].Present? then polls[0].signature == first.signature else StartsUnreplaced(first, polls[1..])
  }

  /** Where a follower that opened `first` starts: at most 4096 bytes before its end. */
  function StartPos(first: Poll): nat {
    if first.Present? && |first.bytes| > 4096 then |first.bytes| - 4096 else 0
  }

  lemma StartIsLast4096(first: Poll)
    requires first.Present?
    ensures StartPos(first) == |first.bytes| - if |first.bytes| <= 4096 then |first.bytes| else 4096
  {
  }

  lemma {:induction false} LastSeenWasPolled(first: Poll, polls: seq<Poll>)
    ensures LastSeen(first, polls) in [first] + polls
  {
    if polls != [] && polls[|polls| - 1].Missing? {
      LastSeenWasPolled(first, polls[..|polls| - 1]);
    }
  }

  /** A file that is only ever replaced as a whole: a poll that finds the
      signature of the last one finds the same bytes. */
  ghost predicate ReplacedWhole(first: Poll, polls: seq<Poll>)
    requires first.Present?
  {
    forall i :: 0 <= i < |polls| && polls[i].Present? && polls[i].signature == LastSeen(first, polls[..i]).signature ==>
      polls[i].bytes == LastSeen(first, polls[..i]).bytes
  }

  lemma LastSeenStep(first: Poll, polls: seq<Poll>, i: nat)
    requires i < |polls|
    ensures LastSeen(first, polls[..i + 1]) == if polls[i].Present? then polls[i] else LastSeen(first, polls[..i])
  {
    assert polls[..i + 1][..i] == polls[..i];
  }

  /** The largest overlap of at most `n` bytes, found by trying. */
  function OverlapUpTo(previous: Bytes, current: Bytes, n: nat): (k: nat)
    ensures k <= n && IsOverlap(previous, current, k)
    ensures forall m: nat :: m <= n && IsOverlap(previous, current, m) ==> m <= k
  {
    if n == 0 || IsOverlap(previous, current, n) then n else OverlapUpTo(previous, current, n - 1)
  }

  /** The new part of a mirror that replaced the previous one. */
  function NewPart(previous: Bytes, current: Bytes): Bytes {
    current[OverlapUpTo(previous, current, |current|)..]
  }

  /** All mirrors laid over each other: the first one, and of each that replaced
      another the new part. */
  function Laid(first: Poll, polls: seq<Poll>): Bytes
    requires first.Present?
  {
    if polls == [] then first.bytes
    else
      var rest, now := polls[..|polls| - 1], polls[|polls| - 1];
      var last := LastSeen(first, rest);
      if now.Missing? || now.signature == last.signature then Laid(first, rest)
      else Laid(first, rest) + NewPart(last.bytes, now.bytes)
  }

  lemma LaidStep(first: Poll, polls: seq<Poll>, i: nat)
    requires first.Present? && i < |polls|
    ensures var last := LastSeen(first, polls[..i]);
      Laid(first, polls[..i + 1]) ==
        if polls[i].Missing? || polls[i].signature == last.signature then Laid(first, polls[..i])
        else Laid(first, polls[..i]) + NewPart(last.bytes, polls[i].bytes)
  {
    assert polls[..i + 1][..i] == polls[..i];
  }

  /** Laying a mirror over a text that ends in the previous one. */
  lemma Lay(shown: Bytes, previous: Bytes, current: Bytes, k: nat)
    requires EndsWith(shown, previous) && IsLargestOverlap(previous, current, k)
    ensures EndsWith(shown + current[k..], current)
  {
    ShortestExtension(previous, current, k, previous);
    var cut := |shown| - |previous|;
    assert shown + current[k..] == shown[..cut] + (previous + current[k..]);
  }

  lemma {:induction false} FirstLook(first: Poll, polls: seq<Poll>, i: nat)
    requires first.Present? && i < |polls| && polls[i].Present? && forall j :: 0 <= j < i ==> polls[j].Missing?
    ensures StartsUnreplaced(first, polls) <==> polls[i].signature == first.signature
    decreases i
  {
    if i > 0 {
      FirstLook(first, polls[1..], i - 1);
    }
  }

  lemma UnreplacedIsUnchanged(first: Poll, polls: seq<Poll>, i: nat)
    requires first.Present? && ReplacedWhole(first, polls) && i < |polls|
    ensures LastSeen(first, polls[..i + 1]) == if polls[i].Present? then polls[i] else LastSeen(first, polls[..i])
    ensures polls[i].Present? && polls[i].signature == LastSeen(first, polls[..i]).signature ==>
      polls[i] == LastSeen(first, polls[..i])
  {
    LastSeenStep(first, polls, i);
  }

  /** What is printed for the file already being followed; a shorter file starts over. */
  method ReadOn(bytes: Bytes, pos: nat) returns (data: Bytes, next: nat)
    ensures data == bytes[if |bytes| < pos then 0 else pos..] && next == |bytes|
  {
    data, next := [], pos;
    if |bytes| < next {
      next := 0;
    }
    if |bytes| > next {
      data := bytes[next..];
      next := next + |data|;
    }
  }

  /** What is printed for a mirror that replaced the previous one. */
  method ShowMirror(ghost shown: Bytes, previous: Bytes, current: Bytes) returns (data: Bytes)
    requires EndsWith(shown, previous)
    ensures EndsWith(shown + data, current)
    ensures data == NewPart(previous, current)
  {
    var overlap, _ := SuffixPrefixOverlap(previous, current);
    Lay(shown, previous, current, overlap);
    assert overlap == OverlapUpTo(previous, current, |current|);
    data := current[overlap..];
  }

  /** The text shown so far ends in the last mirror, and `printed` is its part
      from `from` on, once the follower has looked at all. */
  ghost predicate Shows(first: Poll, last: Poll, begun: bool, from: nat, pos: nat, printed: Bytes, shown: Bytes) {
    && first.Present? && last.Present? && first.bytes <= shown && EndsWith(shown, last.bytes)
    && (!begun ==> pos == StartPos(first) && printed == [] && shown == first.bytes && last == first)
    && (begun ==> pos == |last.bytes| && from <= |shown| && printed == shown[from..])
  }

  lemma ShowsFirst(first: Poll, from: nat)
    requires first.Present?
    ensures Shows(first, first, false, from, StartPos(first), [], first.bytes)
  {
  }

  lemma ReplacingShows(first: Poll, last: Poll, begun: bool, from: nat, pos: nat, printed: Bytes, shown: Bytes, now: Poll, data: Bytes)
    requires Shows(first, last, begun, from, pos, printed, shown) && now.Present?
    requires EndsWith(shown + data, now.bytes) && (!begun ==> from == |first.bytes|)
    ensures Shows(first, now, true, from, |now.bytes|, printed + data, shown + data)
  {
    assert (shown + data)[from..] == shown[from..] + data;
  }

  lemma StayingShows(first: Poll, last: Poll, begun: bool, from: nat, pos: nat, printed: Bytes, shown: Bytes, data: Bytes)
    requires Shows(first, last, begun, from, pos, printed, shown)
    requires data == last.bytes[if |last.bytes| < pos then 0 else pos..] && (!begun ==> from == StartPos(first))
    ensures Shows(first, last, true, from, |last.bytes|, printed + data, shown)
  {
  }

  /** One look of the follower at a mirror, `last` being the one it saw before. */
  method Look(now: Poll, last: Poll, pos: nat, ghost first: Poll, ghost begun: bool, ghost from: nat,
              ghost printed: Bytes, ghost shown: Bytes)
    returns (data: Bytes, next: nat, ghost shown': Bytes)
    requires now.Present? && Shows(first, last, begun, from, pos, printed, shown)
    requires now.signature == last.signature ==> now == last
    requires !begun ==> from == if now.signature == first.signature then StartPos(first) else |first.bytes|
    ensures Shows(first, now, true, from, next, printed + data, shown')
    ensures shown' == if now.signature != last.signature then shown + NewPart(last.bytes, now.bytes) else shown
    ensures data == if now.signature != last.signature then NewPart(last.bytes, now.bytes)
                    else now.bytes[if |now.bytes| < pos then 0 else pos..]
  {
    if now.signature != last.signature {
      data := ShowMirror(shown, last.bytes, now.bytes);
      ReplacingShows(first, last, begun, from, pos, printed, shown, now, data);
      next, shown' := |now.bytes|, shown + data;
    } else {
      data, next := ReadOn(now.bytes, pos);
      StayingShows(first, last, begun, from, pos, printed, shown, data);
      shown' := shown;
    }
  }

  /** The mirrors laid over each other form a text that begins with the first
      mirror and ends in the last. */
  lemma {:induction false} LaidEndsInLast(first: Poll, polls: seq<Poll>)
    requires first.Present? && ReplacedWhole(first, polls)
    ensures first.bytes <= Laid(first, polls) && EndsWith(Laid(first, polls), LastSeen(first, polls).bytes)
    decreases |polls|
  {
    hide LastSeen, ReplacedWhole, EndsWith, OverlapUpTo, IsLargestOverlap, Laid;
    if polls == [] {
      LaidFirst(first);
    } else {
      var n := |polls| - 1;
      ReplacedBefore(first, polls);
      LaidEndsInLast(first, polls[..n]);
      UnreplacedIsUnchanged(first, polls, n);
      LaidStep(first, polls, n);
      assert polls[..n + 1] == polls;
      var last, now := LastSeen(first, polls[..n]), polls[n];
      if now.Present? && now.signature != last.signature {
        LayNew(Laid(first, polls[..n]), last.bytes, now.bytes);
      }
    }
  }

  lemma LaidFirst(first: Poll)
    requires first.Present?
    ensures Laid(first, []) == first.bytes && EndsWith(first.bytes, LastSeen(first, []).bytes)
  {
  }

  lemma ReplacedBefore(first: Poll, polls: seq<Poll>)
    requires first.Present? && polls != [] && ReplacedWhole(first, polls)
    ensures ReplacedWhole(first, polls[..|polls| - 1])
  {
    var rest := polls[..|polls| - 1];
    assert forall i :: 0 <= i < |rest| ==> rest[..i] == polls[..i] && rest[i] == polls[i];
  }

  lemma LayNew(shown: Bytes, previous: Bytes, current: Bytes)
    requires EndsWith(shown, previous)
    ensures EndsWith(shown + NewPart(previous, current), current)
  {
    Lay(shown, previous, current, OverlapUpTo(previous, current, |current|));
  }

  /** Some poll found the file. */
  predicate Found(polls: seq<Poll>) {
    exists p :: p in polls && p.Present?
  }

  lemma FoundStep(polls: seq<Poll>, i: nat)
    requires i < |polls|
    ensures Found(polls[..i + 1]) <==> Found(polls[..i]) || polls[i].Present?
  {
    assert polls[..i + 1] == polls[..i] + [polls[i]];
    assert polls[i] in polls[..i + 1];
  }

  lemma FirstFind(first: Poll, polls: seq<Poll>, i: nat)
    requires first.Present? && i < |polls| && polls[i].Present? && !Found(polls[..i])
    ensures StartsUnreplaced(first, polls) <==> polls[i].signature == first.signature
  {
    forall j | 0 <= j < i ensures polls[j].Missing? {
      assert polls[j] in polls[..i];
    }
    FirstLook(first, polls, i);
  }

  lemma NothingSeen(first: Poll, polls: seq<Poll>)
    requires first.Present?
    ensures LastSeen(first, polls[..0]) == first && Laid(first, polls[..0]) == first.bytes && !Found(polls[..0])
  {
  }

  /** Following a mirror that is replaced as a whole prints the mirrors laid over
      each other, from the start position on (from the end of the first mirror
      on, if it was replaced before the first look). */
  method FollowMirror(first: Poll, polls: seq<Poll>) returns (printed: Bytes)
    requires first.Present? && ReplacedWhole(first, polls)
    ensures |first.bytes| <= |Laid(first, polls)|
    ensures printed ==
      if Found(polls)
      then Laid(first, polls)[if StartsUnreplaced(first, polls) then StartPos(first) else |first.bytes|..]
      else []
    ensures Found(polls) && !StartsUnreplaced(first, polls) ==> |printed| == |Laid(first, polls)| - |first.bytes|
    ensures Found(polls) && StartsUnreplaced(first, polls) ==>
      |printed| == |Laid(first, polls)| - |first.bytes| + if |first.bytes| <= 4096 then |first.bytes| else 4096
  {
    StartIsLast4096(first);
    hide Laid, LastSeen, StartsUnreplaced, NewPart, ReplacedWhole, StartPos, Found;
    var last, pos: nat := first, StartPos(first);
    ghost var shown := first.bytes;
    printed := [];
    ghost var begun := false;
    ghost var from := if StartsUnreplaced(first, polls) then StartPos(first) else |first.bytes|;
    ShowsFirst(first, from);
    NothingSeen(first, polls);
    for i := 0 to |polls|
      invariant last == LastSeen(first, polls[..i]) && shown == Laid(first, polls[..i])
      invariant Shows(first, last, begun, from, pos, printed, shown)
      invariant begun == Found(polls[..i])
    {
      UnreplacedIsUnchanged(first, polls, i);
      LaidStep(first, polls, i);
      FoundStep(polls, i);
      if polls[i].Present? {
        if !begun {
          FirstFind(first, polls, i);
        }
        var data;
        data, pos, shown := Look(polls[i], last, pos, first, begun, from, printed, shown);
        last, printed, begun := polls[i], printed + data, true;
      }
    }
    assert polls[..|polls|] == polls;
  }

  // ---------------------------------------------------------------------------
  // Following the file itself
  // ---------------------------------------------------------------------------

  /** Where the follower is in the file: at the end of what it last saw. */
  function Position(first: Poll, polls: seq<Poll>): nat {
    if polls == [] then StartPos(first)
    else if polls[|polls| - 1].Present? then |polls[|polls| - 1].bytes|
    else Position(first, polls[..|polls| - 1])
  }

  /** What one poll adds: a file that got shorter is read from its beginning. */
  function Addition(now: Poll, pos: nat): Bytes {
    if now.Missing? then [] else now.bytes[if |now.bytes| < pos then 0 else pos..]
  }

  function Followed(first: Poll, polls: seq<Poll>): Bytes {
    if polls == [] then []
    else
      var rest := polls[..|polls| - 1];
      Followed(first, rest) + Addition(polls[|polls| - 1], Position(first, rest))
  }

  /** The follow loop of a file that is not a mirror. */
  method FollowFile(first: Poll, polls: seq<Poll>) returns (printed: Bytes)
    ensures printed == Followed(first, polls)
  {
    var pos := StartPos(first);
    printed := [];
    for i := 0 to |polls|
      invariant pos == Position(first, polls[..i]) && printed == Followed(first, polls[..i])
    {
      assert polls[..i + 1][..i] == polls[..i];
      if polls[i].Present? {
        var data;
        data, pos := ReadOn(polls[i].bytes, pos);
        printed := printed + data;
      } else {
        assert printed + [] == printed;
      }
    }
    assert polls[..|polls|] == polls;
  }

  function BytesOf(p: Poll): Bytes {
    if p.Present? then p.bytes else []
  }

  /** After poll `i` every poll that finds the file finds it extended. */
  ghost predicate GrowsAfter(first: Poll, polls: seq<Poll>, i: nat) {
    forall l :: i < l < |polls| && polls[l].Present? ==> BytesOf(LastSeen(first, polls[..l])) <= polls[l].bytes
  }

  lemma GrowsBefore(first: Poll, polls: seq<Poll>, i: nat)
    requires polls != [] && GrowsAfter(first, polls, i)
    ensures GrowsAfter(first, polls[..|polls| - 1], i)
  {
    var rest := polls[..|polls| - 1];
    assert forall l :: 0 <= l < |rest| ==> rest[l] == polls[l] && rest[..l] == polls[..l];
  }

  /** Where reading begins at a poll: where the follower was, or at the file's
      beginning when it got shorter. */
  function ReadsFrom(first: Poll, polls: seq<Poll>, i: nat): nat
    requires i < |polls|
  {
    var pos := Position(first, polls[..i]);
    if |BytesOf(polls[i])| < pos then 0 else pos
  }

  lemma FollowedStep(first: Poll, polls: seq<Poll>)
    requires polls != []
    ensures var n := |polls| - 1; var rest := polls[..n];
      && (polls[n].Missing? ==> Followed(first, polls) == Followed(first, rest)
                                && Position(first, polls) == Position(first, rest) && LastSeen(first, polls) == LastSeen(first, rest))
      && (polls[n].Present? ==> Followed(first, polls) == Followed(first, rest) + polls[n].bytes[ReadsFrom(first, polls, n)..]
                                && Position(first, polls) == |polls[n].bytes| && LastSeen(first, polls) == polls[n])
  {
    var rest := polls[..|polls| - 1];
    assert Followed(first, rest) + [] == Followed(first, rest);
  }

  /** While a file only grows, what is printed from a poll on is exactly its
      bytes from where reading began: from the start position at first, and from
      the file's beginning after each time it got shorter. */
  lemma {:induction false} GrowingIsPrinted(first: Poll, polls: seq<Poll>, i: nat)
    requires i < |polls| && polls[i].Present? && GrowsAfter(first, polls, i)
    ensures Position(first, polls) == |BytesOf(LastSeen(first, polls))| >= ReadsFrom(first, polls, i)
    ensures Followed(first, polls)
         == Followed(first, polls[..i]) + BytesOf(LastSeen(first, polls))[ReadsFrom(first, polls, i)..]
    decreases |polls|
  {
    hide Followed, Position, LastSeen, GrowsAfter;
    var n := |polls| - 1;
    var rest, now, from := polls[..n], polls[n], ReadsFrom(first, polls, i);
    FollowedStep(first, polls);
    if i < n {
      assert rest[..i] == polls[..i] && rest[i] == polls[i];
      GrowsBefore(first, polls, i);
      GrowingIsPrinted(first, rest, i);
      if now.Present? {
        ExtendedAt(first, polls, i);
        Extends(Followed(first, polls[..i]), BytesOf(LastSeen(first, rest)), now.bytes, from);
      }
    }
  }

  lemma ExtendedAt(first: Poll, polls: seq<Poll>, i: nat)
    requires i < |polls| - 1 && polls[|polls| - 1].Present? && GrowsAfter(first, polls, i)
    ensures BytesOf(LastSeen(first, polls[..|polls| - 1])) <= polls[|polls| - 1].bytes
  {
  }

  lemma Extends(printed: Bytes, last: Bytes, now: Bytes, from: nat)
    requires from <= |last| && last <= now
    ensures printed + last[from..] + now[|last|..] == printed + now[from..]
  {
    assert now[from..] == last[from..] + now[|last|..];
  }

  lemma {:induction false} NothingFollowed(first: Poll, polls: seq<Poll>)
    requires !Found(polls)
    ensures Followed(first, polls) == [] && Position(first, polls) == StartPos(first) && LastSeen(first, polls) == first
  {
    if polls != [] {
      assert polls[|polls| - 1] in polls && forall p :: p in polls[..|polls| - 1] ==> p in polls;
      NothingFollowed(first, polls[..|polls| - 1]);
      FollowedStep(first, polls);
    }
  }

  /** A file that is only appended to is printed exactly from the start position
      on: its last 4096 bytes, or all of it, and then what it gains. */
  lemma AppendedIsPrinted(first: Poll, polls: seq<Poll>)
    requires first.Present? && AppendOnly([first] + polls)
    ensures EndsWith(LastSeen(first, polls).bytes, Followed(first, polls))
    ensures Found(polls) ==>
      |Followed(first, polls)| == |LastSeen(first, polls).bytes| - |first.bytes| + if |first.bytes| <= 4096 then |first.bytes| else 4096
    ensures StartPos(first) <= |LastSeen(first, polls).bytes|
    ensures Followed(first, polls) == if Found(polls) then LastSeen(first, polls).bytes[StartPos(first)..] else []
  {
    hide Followed, Position, LastSeen, GrowsAfter, AppendOnly, Found;
    StartIsLast4096(first);
    if Found(polls) {
      var i := FirstFound(polls);
      NothingFollowed(first, polls[..i]);
      AppendsAfter(first, polls, i);
      AppendedAt(first, polls, i);
      GrowingIsPrinted(first, polls, i);
      AppendedHas(first, polls);
      assert [] + LastSeen(first, polls).bytes[StartPos(first)..] == LastSeen(first, polls).bytes[StartPos(first)..];
    } else {
      NothingFollowed(first, polls);
    }
  }

  lemma AppendedAt(first: Poll, polls: seq<Poll>, i: nat)
    requires first.Present? && AppendOnly([first] + polls) && i < |polls| && polls[i].Present?
    ensures first.bytes <= polls[i].bytes
  {
    assert ([first] + polls)[0] == first && ([first] + polls)[i + 1] == polls[i];
  }

  lemma AppendedHas(first: Poll, polls: seq<Poll>)
    requires first.Present? && AppendOnly([first] + polls)
    ensures first.bytes <= LastSeen(first, polls).bytes
  {
    LastSeenWasPolled(first, polls);
    assert ([first] + polls)[0] == first;
  }

  lemma FirstFound(polls: seq<Poll>) returns (i: nat)
    requires Found(polls)
    ensures i < |polls| && polls[i].Present? && !Found(polls[..i])
  {
    i := 0;
    while polls[i].Missing?
      invariant i < |polls| && forall k :: 0 <= k < i ==> polls[k].Missing?
      decreases |polls| - i
    {
      var p :| p in polls && p.Present?;
      var k :| 0 <= k < |polls| && polls[k] == p;
      i := i + 1;
    }
  }

  lemma AppendsAfter(first: Poll, polls: seq<Poll>, i: nat)
    requires first.Present? && AppendOnly([first] + polls)
    ensures GrowsAfter(first, polls, i)
  {
    var all := [first] + polls;
    forall l | i < l < |polls| && polls[l].Present? ensures BytesOf(LastSeen(first, polls[..l])) <= polls[l].bytes {
      LastSeenWasPolled(first, polls[..l]);
      var j :| 0 <= j < |[first] + polls[..l]| && ([first] + polls[..l])[j] == LastSeen(first, polls[..l]);
      assert all[j] == LastSeen(first, polls[..l]) && all[l + 1] == polls[l];
    }
  }
}
