/**
What the printed values of a job's detail still say: sanitising keeps the words
of a text, and a printed duration reads back as its minutes.
*/
module DetailValues {
  import opened Common
  import opened Nodelist
  import NodelistText
  import opened Detail

  // ---------------------------------------------------------------------------
  // Sanitising
  // ---------------------------------------------------------------------------

  /** The characters of a text that are not white space, in order. */
  function Visible(s: string): string {
    if s == "" then "" else (if IsSpace(s[0]) then "" else [s[0]]) + Visible(s[1..])
  }

  /** Words are separated by single spaces and by nothing else. */
  predicate Clean(s: string) {
    && (forall i :: 0 <= i < |s| && IsSpace(s[i]) ==> s[i] == ' ' && 0 < i < |s| - 1)
    && (forall i :: 0 < i < |s| && IsSpace(s[i]) ==> !IsSpace(s[i - 1]))
  }

  predicate IsWord(w: string) {
    w != "" && forall i :: 0 <= i < |w| ==> !IsSpace(w[i])
  }

  predicate AreWords(ws: seq<string>) {
    forall i :: 0 <= i < |ws| ==> IsWord(ws[i])
  }

  lemma {:induction false} VisibleConcat(a: string, b: string)
    ensures Visible(a + b) == Visible(a) + Visible(b)
    decreases |a|
  {
    if a == "" {
      assert a + b == b;
    } else {
      assert (a + b)[1..] == a[1..] + b;
      VisibleConcat(a[1..], b);
    }
  }

  lemma {:induction false} WordIsVisible(w: string)
    requires forall i :: 0 <= i < |w| ==> !IsSpace(w[i])
    ensures Visible(w) == w
  {
    hide IsSpace;
    if w != "" {
      WordIsVisible(w[1..]);
      assert w == [w[0]] + w[1..];
    }
  }

  lemma WordsAreWords(s: string)
    ensures AreWords(Words(s))
  {
    hide Words;
    var ws := Words(s);
    assert forall i :: 0 <= i < |ws| ==> ws[i] in ws;
  }

  /** Joined with spaces, the words have the text's visible characters. */
  lemma {:induction false} WordsKeepVisible(s: string)
    ensures Visible(Join(Words(s), ' ')) == Visible(s)
    decreases |s|
  {
    hide IsSpace;
    if s == "" {
    } else if IsSpace(s[0]) {
      WordsKeepVisible(s[1..]);
    } else {
      var e := WordEnd(s, 1);
      var w, rest := s[..e], s[e..];
      assert s == w + rest && Words(s) == [w] + Words(rest);
      assert forall i :: 0 <= i < |w| ==> !IsSpace(w[i]);
      WordsKeepVisible(rest);
      VisibleConcat(w, rest);
      WordIsVisible(w);
      JoinVisible(w, Words(rest));
    }
  }

  lemma JoinVisible(w: string, ws: seq<string>)
    ensures Visible(Join([w] + ws, ' ')) == Visible(w) + Visible(Join(ws, ' '))
  {
    assert ([w] + ws)[1..] == ws;
    if ws == [] {
      VisibleConcat(w, "");
      assert w + "" == w;
    } else {
      VisibleConcat(w + " ", Join(ws, ' '));
      VisibleConcat(w, " ");
      assert Visible(" ") == "" by { assert IsSpace(' ') && " "[1..] == ""; }
    }
  }

  /** Sanitising drops no visible character of a text that fits, and of a longer
      one keeps those that come first. */
  lemma SanitiseKeepsVisible(text: string, limit: nat)
    ensures Visible(Sanitise(text, limit)) <= Visible(text)
    ensures |Join(Words(text), ' ')| <= limit ==> Visible(Sanitise(text, limit)) == Visible(text)
  {
    hide Words, Visible;
    var joined := Join(Words(text), ' ');
    WordsKeepVisible(text);
    if |joined| > limit {
      assert joined == joined[..limit] + joined[limit..];
      VisibleConcat(joined[..limit], joined[limit..]);
    }
  }

  lemma {:induction false} JoinClean(ws: seq<string>)
    requires AreWords(ws)
    ensures Clean(Join(ws, ' ')) && (ws != [] ==> Join(ws, ' ') != "" && !IsSpace(Join(ws, ' ')[0]))
    decreases |ws|
  {
    hide IsSpace;
    assert IsSpace(' ') by { SpaceIsSpace(); }
    if ws == [] {
    } else if |ws| == 1 {
      assert IsWord(ws[0]);
    } else {
      assert IsWord(ws[0]);
      assert forall i :: 0 <= i < |ws[1..]| ==> ws[1..][i] == ws[i + 1];
      JoinClean(ws[1..]);
      SpaceBetween(ws[0], Join(ws[1..], ' '));
    }
  }

  lemma SpaceIsSpace()
    ensures IsSpace(' ')
  {
  }

  lemma SpaceBetween(w: string, rest: string)
    requires IsWord(w) && Clean(rest) && rest != "" && !IsSpace(rest[0]) && IsSpace(' ')
    ensures Clean(w + [' '] + rest)
  {
    hide IsSpace;
    var s := w + [' '] + rest;
    forall i | 0 <= i < |s| && IsSpace(s[i])
      ensures s[i] == ' ' && 0 < i < |s| - 1 && !IsSpace(s[i - 1])
    {
      if i > |w| {
        assert s[i] == rest[i - |w| - 1];
        assert i - 1 > |w| ==> s[i - 1] == rest[i - |w| - 2];
      }
    }
  }

  /** The result is clean when nothing was cut off. */
  lemma SanitiseCleans(text: string, limit: nat)
    requires |Join(Words(text), ' ')| <= limit
    ensures Clean(Sanitise(text, limit))
  {
    hide Words, Clean;
    WordsAreWords(text);
    JoinClean(Words(text));
  }

  lemma WordEndIs(s: string, i: nat, e: nat)
    requires i <= e <= |s| && (forall k :: i <= k < e ==> !IsSpace(s[k])) && (e < |s| ==> IsSpace(s[e]))
    ensures WordEnd(s, i) == e
    decreases e - i
  {
    hide IsSpace;
    if i < e {
      WordEndIs(s, i + 1, e);
    }
  }

  lemma FirstWord(w: string, rest: string)
    requires IsWord(w) && (rest == "" || IsSpace(rest[0]))
    ensures Words(w + rest) == [w] + Words(rest)
  {
    hide IsSpace;
    var s := w + rest;
    WordEndIs(s, 1, |w|);
    assert s[..|w|] == w && s[|w|..] == rest;
  }

  lemma WordsStep(s: string)
    requires s != "" && !IsSpace(s[0])
    ensures var e := WordEnd(s, 1);
      && 0 < e <= |s| && s == s[..e] + s[e..] && Words(s) == [s[..e]] + Words(s[e..])
      && forall i :: 0 <= i < e ==> !IsSpace(s[i])
  {
    hide IsSpace;
  }

  lemma WordsSkip(tail: string)
    ensures Words([' '] + tail) == Words(tail)
  {
    assert ([' '] + tail)[1..] == tail;
  }

  lemma OneWord(w: string)
    ensures Join([w], ' ') == w && Words("") == []
  {
  }

  lemma MoreWords(w: string, ws: seq<string>)
    requires ws != []
    ensures Join([w] + ws, ' ') == w + [' '] + Join(ws, ' ')
  {
    assert ([w] + ws)[1..] == ws;
  }

  lemma HasWords(s: string)
    requires s != "" && !IsSpace(s[0])
    ensures Words(s) != []
  {
    WordsStep(s);
  }

  lemma CleanBegins(s: string)
    requires Clean(s) && s != ""
    ensures !IsSpace(s[0])
  {
  }

  /** A clean text is its words joined, so sanitising leaves it alone. */
  lemma {:induction false} CleanIsJoined(s: string)
    requires Clean(s)
    ensures Join(Words(s), ' ') == s
    decreases |s|
  {
    hide IsSpace, Words, WordEnd, Join, Clean;
    if s == "" {
      NoWords();
    } else {
      CleanBegins(s);
      WordsStep(s);
      var e := WordEnd(s, 1);
      if e == |s| {
        OneWord(s);
        assert s[..e] == s && s[e..] == "" && [s] + [] == [s];
      } else {
        var tail := s[e + 1..];
        WordEndStops(s, 1);
        TailIsClean(s, e);
        assert s[e..] == [' '] + tail;
        WordsSkip(tail);
        CleanIsJoined(tail);
        HasWords(tail);
        MoreWords(s[..e], Words(tail));
      }
    }
  }

  lemma NoWords()
    ensures Join(Words(""), ' ') == ""
  {
  }

  lemma WordEndStops(s: string, i: nat)
    requires i <= |s| && WordEnd(s, i) < |s|
    ensures IsSpace(s[WordEnd(s, i)])
    decreases |s| - i
  {
    hide IsSpace;
    if !IsSpace(s[i]) {
      WordEndStops(s, i + 1);
    }
  }

  lemma TailIsClean(s: string, e: nat)
    requires Clean(s) && 0 < e < |s| && IsSpace(s[e])
    ensures s[e] == ' ' && e + 1 < |s| && !IsSpace(s[e + 1]) && Clean(s[e + 1..])
  {
    hide IsSpace;
    var tail := s[e + 1..];
    assert !IsSpace(s[e + 1]) by {
      assert s[e + 1 - 1] == s[e];
    }
    forall i | 0 <= i < |tail| && IsSpace(tail[i])
      ensures tail[i] == ' ' && 0 < i < |tail| - 1 && !IsSpace(tail[i - 1])
    {
      assert tail[i] == s[e + 1 + i];
      assert i > 0 ==> tail[i - 1] == s[e + i];
    }
  }

  /** So sanitising a clean text that fits changes nothing. */
  lemma SanitiseSparesClean(s: string, limit: nat)
    requires Clean(s) && |s| <= limit
    ensures Sanitise(s, limit) == s
  {
    hide Words, Clean;
    CleanIsJoined(s);
  }

  // ---------------------------------------------------------------------------
  // Durations
  // ---------------------------------------------------------------------------

  /** The seconds of `hours:minutes:seconds`. */
  function ReadClock(clock: string): Option<nat> {
    var parts := SplitOn(clock, ':');
    if |parts| == 3 && AllDigits(parts[0]) && AllDigits(parts[1]) && AllDigits(parts[2])
    then Some(Int(parts[0]) * 3600 + Int(parts[1]) * 60 + Int(parts[2])) else None
  }

  /** The minutes of `[days-]hours:minutes:seconds`. */
  function ReadDuration(s: string): Option<nat> {
    var cut := FirstIndex(s, '-');
    var clock := ReadClock(if cut < |s| then s[cut + 1..] else s);
    if clock.None? then None
    else if cut == |s| then Some(clock.value / 60)
    else if AllDigits(s[..cut]) then Some((Int(s[..cut]) * 86400 + clock.value) / 60)
    else None
  }

  lemma TwoDigitsRead(n: nat)
    requires n < 100
    ensures AllDigits(TwoDigits(n)) && Int(TwoDigits(n)) == n && |TwoDigits(n)| == 2
  {
    NodelistText.ShowIsNumeral(n);
    NodelistText.ZFillIsNumeral(Show(n), n, 2);
    if n >= 10 {
      assert |Show(n / 10)| == 1;
    } else {
      assert ZFill("0" + Show(n), 2) == "0" + Show(n);
    }
  }

  function Clock3(h: string, m: string, s: string): string {
    h + ":" + m + ":" + s
  }

  lemma DigitsHaveNo(s: string, c: char)
    requires AllDigits(s) && !IsDigit(c)
    ensures forall i :: 0 <= i < |s| ==> s[i] != c
  {
  }

  lemma ClockSplits(h: string, m: string, s: string)
    requires AllDigits(h) && AllDigits(m) && AllDigits(s)
    ensures SplitOn(Clock3(h, m, s), ':') == [h, m, s]
    ensures forall i :: 0 <= i < |Clock3(h, m, s)| ==> Clock3(h, m, s)[i] != '-'
  {
    hide AllDigits, SplitOn;
    DigitsHaveNo(h, ':');
    DigitsHaveNo(m, ':');
    DigitsHaveNo(s, ':');
    DigitsHaveNo(h, '-');
    DigitsHaveNo(m, '-');
    DigitsHaveNo(s, '-');
    assert Clock3(h, m, s) == h + [':'] + (m + [':'] + s);
    NodelistText.SplitAfter(h, ':', m + [':'] + s);
    NodelistText.SplitAfter(m, ':', s);
    NodelistText.SplitWithout(s, ':');
  }

  lemma DurationText(minutes: nat)
    ensures var seconds := minutes * 60;
      var (days, rest) := (seconds / 86400, seconds % 86400);
      DurationMinutes(JInt(minutes)) ==
        (if days > 0 then Show(days) + "-" else "")
        + Clock3(TwoDigits(rest / 3600), TwoDigits(rest % 3600 / 60), TwoDigits(rest % 60))
  {
    hide Show, TwoDigits;
    var rest := minutes * 60 % 86400;
    var h, m, s := TwoDigits(rest / 3600), TwoDigits(rest % 3600 / 60), TwoDigits(rest % 60);
    var d := if minutes * 60 / 86400 > 0 then Show(minutes * 60 / 86400) + "-" else "";
    assert d + h + ":" + m + ":" + s == d + Clock3(h, m, s);
  }

  lemma Remainder60(q: nat, r: nat)
    ensures (q * 3600 + r) % 60 == r % 60
  {
    assert q * 3600 + r == 60 * (60 * q) + r;
  }

  lemma Decompose(seconds: nat)
    ensures var rest := seconds % 86400;
      && rest / 3600 < 24 && rest % 3600 / 60 < 60 && rest % 60 < 60
      && (seconds / 86400) * 86400 + (rest / 3600) * 3600 + (rest % 3600 / 60) * 60 + rest % 60 == seconds
  {
    var rest := seconds % 86400;
    NodelistText.DivMod(seconds, 86400);
    NodelistText.DivMod(rest, 3600);
    NodelistText.DivMod(rest % 3600, 60);
    Remainder60(rest / 3600, rest % 3600);
  }

  /** A printed duration reads back as its minutes. */
  lemma DurationReadsBack(minutes: nat)
    ensures ReadDuration(DurationMinutes(JInt(minutes))) == Some(minutes)
  {
    hide DurationMinutes, TwoDigits, Show, Int, AllDigits, SplitOn, FirstIndex, Clock3;
    var seconds := minutes * 60;
    var (days, rest) := (seconds / 86400, seconds % 86400);
    Decompose(seconds);
    var h, m, s := TwoDigits(rest / 3600), TwoDigits(rest % 3600 / 60), TwoDigits(rest % 60);
    TwoDigitsRead(rest / 3600);
    TwoDigitsRead(rest % 3600 / 60);
    TwoDigitsRead(rest % 60);
    NodelistText.ShowIsNumeral(days);
    DurationText(minutes);
    ClockSplits(h, m, s);
    DurationParts(days, h, m, s);
  }

  lemma ClockReads(h: string, m: string, s: string)
    requires AllDigits(h) && AllDigits(m) && AllDigits(s)
    ensures ReadClock(Clock3(h, m, s)) == Some(Int(h) * 3600 + Int(m) * 60 + Int(s))
  {
    hide Int, SplitOn, Clock3;
    ClockSplits(h, m, s);
  }

  lemma DurationParts(days: nat, h: string, m: string, s: string)
    requires AllDigits(h) && AllDigits(m) && AllDigits(s)
    ensures ReadDuration((if days > 0 then Show(days) + "-" else "") + Clock3(h, m, s))
         == Some((days * 86400 + (Int(h) * 3600 + Int(m) * 60 + Int(s))) / 60)
  {
    hide Show, Int, AllDigits, Clock3, ReadClock;
    var clock := Clock3(h, m, s);
    ClockSplits(h, m, s);
    ClockReads(h, m, s);
    NodelistText.ShowIsNumeral(days);
    if days > 0 {
      var d := Show(days);
      var text := d + "-" + clock;
      DigitsHaveNo(d, '-');
      NodelistText.FirstIndexIs(text, '-', |d|);
      assert text[..|d|] == d && text[|d| + 1..] == clock;
    } else {
      assert "" + clock == clock;
      NodelistText.FirstIndexIs(clock, '-', |clock|);
    }
  }

  // ---------------------------------------------------------------------------
  // Numbers and lists
  // ---------------------------------------------------------------------------

  function ReadInt(s: string): Option<int> {
    if s != "" && s[0] == '-' && AllDigits(s[1..]) then var m: int := Int(s[1..]); Some(-m)
    else if AllDigits(s) then Some(Int(s)) else None
  }

  /** A printed number reads back. */
  lemma ShowIntReadsBack(n: int)
    ensures ReadInt(ShowInt(n)) == Some(n) && Clean(ShowInt(n))
  {
    hide Show;
    var m := if n < 0 then -n else n;
    NodelistText.ShowIsNumeral(m);
    DigitsHaveNo(Show(m), '-');
    if n < 0 {
      assert ("-" + Show(m))[1..] == Show(m);
    }
    assert forall i :: 0 <= i < |ShowInt(n)| ==> ShowInt(n)[i] == '-' || IsDigit(ShowInt(n)[i]);
  }

  /** What a scalar field prints of a number, given as such or wrapped: the number,
      `UNLIMITED`, or nothing when it is marked as not set. */
  lemma NumbersAre(v: Json, n: int)
    requires |ShowInt(n)| <= SCALAR_LIMIT
    ensures v == JInt(n) ==> ReadInt(WrappedScalar(v)) == Some(n)
    ensures v.JObj? && "infinite" in v.fields && v.fields["infinite"] == JBool(true) ==> WrappedScalar(v) == "UNLIMITED"
    ensures v.JObj? && ("infinite" !in v.fields || v.fields["infinite"] != JBool(true)) ==>
      && ("set" in v.fields && v.fields["set"] == JBool(false) ==> WrappedScalar(v) == "")
      && ("number" in v.fields && v.fields["number"] == JInt(n) && !("set" in v.fields && v.fields["set"] == JBool(false)) ==>
           ReadInt(WrappedScalar(v)) == Some(n))
  {
    hide Sanitise, ReadInt, Clean, ShowInt;
    ShowIntReadsBack(n);
    SanitiseSparesClean(ShowInt(n), SCALAR_LIMIT);
  }

  function HasText(): Json -> nat {
    (v: Json) => if PublicScalar(v) == "" then 0 else 1
  }

  /** A list prints the texts of its items in order, but for the empty ones. */
  lemma {:induction false} PartsAre(items: seq<Json>, i: nat)
    requires i < |items|
    ensures |PublicParts(items)| == Total(items, HasText())
    ensures PublicScalar(items[i]) != "" ==>
      Total(items[..i], HasText()) < |PublicParts(items)| && PublicParts(items)[Total(items[..i], HasText())] == PublicScalar(items[i])
    decreases |items|
  {
    hide PublicScalar;
    var rest := items[1..];
    if rest != [] {
      PartsAre(rest, if i > 0 then i - 1 else 0);
    } else {
      assert PublicParts(rest) == [] && Total(rest, HasText()) == 0;
    }
    if i > 0 {
      assert items[..i][0] == items[0] && items[..i][1..] == rest[..i - 1];
    }
  }

  lemma NothingReads()
    ensures ReadInt("").None?
  {
  }

  lemma ArrayTexts(record: Record, clock: Clock, job: int)
    requires "array_job_id" in record && record["array_job_id"] == JInt(job) && "array_task_id" in record
    ensures Value(record, clock, Identity(ArrayJobId)) == if job > 0 then ShowInt(job) else ""
    ensures job <= 0 ==> Value(record, clock, Identity(ArrayTaskId)) == ""
    ensures var task := WrappedScalar(record["array_task_id"]);
      job > 0 && task != "" ==> Value(record, clock, Identity(ArrayTaskId)) == task
  {
    hide ShowInt, WrappedScalar, PublicScalar, ScheduleValue, ResourceValue;
    assert JsonNumber(JInt(job)) == Some(job);
    assert ArrayId(record) == job;
  }

  /** An array task is printed as its array's id and its own; a job outside an
      array has neither. */
  lemma ArrayReadsBack(record: Record, clock: Clock, job: int, task: int)
    requires "array_job_id" in record && record["array_job_id"] == JInt(job)
    requires "array_task_id" in record && record["array_task_id"] == JInt(task)
    requires |ShowInt(task)| <= SCALAR_LIMIT
    ensures job > 0 ==> ReadInt(Value(record, clock, Identity(ArrayJobId))) == Some(job)
                          && ReadInt(Value(record, clock, Identity(ArrayTaskId))) == Some(task)
    ensures job <= 0 ==> |Value(record, clock, Identity(ArrayJobId))| == |Value(record, clock, Identity(ArrayTaskId))| == 0
  {
    NothingReads();
    hide ReadInt, ShowInt, Clean, Value, WrappedScalar, PublicScalar;
    ShowIntReadsBack(job);
    NumbersAre(JInt(task), task);
    ArrayTexts(record, clock, job);
  }

  lemma OwnerText(record: Record, clock: Clock, user: string, uid: int)
    requires "user_name" in record && record["user_name"] == JStr(user) && Clean(user) && 0 < |user| <= SCALAR_LIMIT
    requires "user_id" in record && record["user_id"] == JInt(uid)
    ensures Value(record, clock, Identity(UserId)) == user + "(" + ShowInt(uid) + ")"
  {
    SanitiseSparesClean(user, SCALAR_LIMIT);
    hide ShowInt, Clean, Sanitise, ScheduleValue, ResourceValue;
    assert PublicScalar(JStr(user)) == user && JsonNumber(JInt(uid)) == Some(uid);
  }

  /** The owner's name, if it is clean, and the user id that follows it. */
  lemma OwnerIs(record: Record, clock: Clock, user: string, uid: int)
    requires "user_name" in record && record["user_name"] == JStr(user) && Clean(user) && 0 < |user| <= SCALAR_LIMIT
    requires "user_id" in record && record["user_id"] == JInt(uid)
    ensures var v := Value(record, clock, Identity(UserId));
      && user + "(" <= v && |v| > |user| + 2 && v[|v| - 1] == ')' && ReadInt(v[|user| + 1..|v| - 1]) == Some(uid)
  {
    OwnerText(record, clock, user, uid);
    ShowIntReadsBack(uid);
    ShowIsText(uid);
    hide ReadInt, ShowInt, Clean, Value;
    var v := Value(record, clock, Identity(UserId));
    assert v[|user| + 1..|v| - 1] == ShowInt(uid);
  }

  /** A flag is printed in words, and a time stamp that is set by the local clock. */
  lemma FlagsAndTimes(record: Record, clock: Clock, b: bool, t: int)
    requires "requeue" in record && record["requeue"] == JBool(b)
    requires "submit_time" in record && record["submit_time"] == JObj(map["set" := JBool(true), "number" := JInt(t)])
    ensures (Value(record, clock, Identity(Requeue)) == "Yes" <==> b) && (Value(record, clock, Identity(Requeue)) == "No" <==> !b)
    ensures t > 0 ==> Value(record, clock, Schedule(SubmitTime)) == clock(t)
    ensures t <= 0 ==> Value(record, clock, Schedule(SubmitTime)) == ""
  {
    assert "Yes"[0] != "No"[0];
    var v := JObj(map["set" := JBool(true), "number" := JInt(t)]);
    assert Get(v.fields, "number") == JInt(t) && Get(v.fields, "set") == JBool(true);
    assert JsonNumber(JInt(t)) == Some(t);
    assert JsonNumber(v) == Some(t);
    assert Value(record, clock, Schedule(SubmitTime)) == Timestamp(v, clock);
  }

  /** The detail of a job with a positive number for an id names that job: its
      `JobId` field reads back as the number. */
  lemma JobIdReadsBack(record: Record, clock: Clock, n: int)
    requires ClockOneLine(clock) && n > 0 && |ShowInt(n)| <= SCALAR_LIMIT
    requires "job_id" in record && record["job_id"] == JInt(n)
    ensures ReadInt(PublishedField(JobDetail(record, clock), "JobId")) == Some(n)
  {
    ShowIntReadsBack(n);
    ShowIsText(n);
    hide ReadInt, Clean, ShowInt;
    FirstLineEnds(record, clock);
    hide JobDetail, PublishedField, DetailText.EndOfLine, Fields;
    LookupGivesOwnValue(record, clock, 0);
  }

  lemma ShowIsText(n: int)
    ensures ShowInt(n) != ""
  {
  }

  lemma FirstLineEnds(record: Record, clock: Clock)
    ensures Text(ORDER[0]) == "JobId" && Value(record, clock, ORDER[0]) == FirstId(record)
    ensures DetailText.EndOfLine(Fields(record, clock), "JobId") == |FirstId(record)| + 6
  {
    assert ORDER[0] == Identity(JobId);
    hide FirstId, ScheduleValue, ResourceValue;
    assert Text(Identity(JobId)) == "JobId" && Value(record, clock, Identity(JobId)) == FirstId(record);
    assert Fields(record, clock)[0] == ("JobId", FirstId(record));
  }
}
