/**
The published detail text of a job: one `Key=value` line per field of a
structured scheduler record.  Values are partly written by the submitter, so a
value is put on one line, where it cannot pass for another field.
*/
module Detail {
  import opened Common
  import Nodelist
  import opened DetailText

  // ---------------------------------------------------------------------------
  // Structured values
  // ---------------------------------------------------------------------------

  /** A JSON value; a float carries the text Python prints for it. */
  datatype Json =
    | JNull
    | JBool(bool)
    | JInt(int)
    | JFloat(text: string)
    | JStr(string)
    | JList(items: seq<Json>)
    | JObj(fields: map<string, Json>)

  type Record = map<string, Json>

  function Get(record: Record, name: string): Json {
    if name in record then record[name] else JNull
  }

  function ShowInt(n: int): string {
    if n < 0 then "-" + Nodelist.Show(-n) else Nodelist.Show(n)
  }

  function WordEnd(s: string, i: nat): (e: nat)
    requires i <= |s|
    ensures i <= e <= |s| && forall k :: i <= k < e ==> !Nodelist.IsSpace(s[k])
    decreases |s| - i
  {
    if i == |s| || Nodelist.IsSpace(s[i]) then i else WordEnd(s, i + 1)
  }

  /** `text.split()` */
  function Words(s: string): (ws: seq<string>)
    ensures forall w :: w in ws ==> w != "" && forall i :: 0 <= i < |w| ==> !Nodelist.IsSpace(w[i])
  {
    if s == "" then []
    else if Nodelist.IsSpace(s[0]) then Words(s[1..])
    else var e := WordEnd(s, 1); [s[..e]] + Words(s[e..])
  }

  /** `" ".join(text.split())[:limit]` */
  function Sanitise(text: string, limit: nat): string {
    var joined := Nodelist.Join(Words(text), ' ');
    if |joined| <= limit then joined else joined[..limit]
  }

  const SCALAR_LIMIT := 4096

  /** One display-safe line from a structured value. */
  function PublicScalar(v: Json): string {
    match v
    case JBool(b) => if b then "Yes" else "No"
    case JInt(n) => Sanitise(ShowInt(n), SCALAR_LIMIT)
    case JFloat(text) => Sanitise(text, SCALAR_LIMIT)
    case JStr(text) => Sanitise(text, SCALAR_LIMIT)
    case JList(items) => Sanitise(Nodelist.Join(PublicParts(items), ','), SCALAR_LIMIT)
    case _ => ""
  }

  function PublicParts(items: seq<Json>): seq<string> {
    if items == [] then []
    else (if PublicScalar(items[0]) == "" then [] else [PublicScalar(items[0])]) + PublicParts(items[1..])
  }

  function JsonNumber(v: Json): Option<int> {
    match v
    case JInt(n) => Some(n)
    case JObj(fields) => if Get(fields, "number").JInt? then JsonNumber(Get(fields, "number")) else None
    case _ => None
  }

  function WrappedScalar(v: Json): string {
    if !v.JObj? then PublicScalar(v)
    else if Get(v.fields, "infinite") == JBool(true) then "UNLIMITED"
    else if Get(v.fields, "set") == JBool(false) then ""
    else PublicScalar(Get(v.fields, "number"))
  }

  /** Renders a positive time stamp in local time; the empty text when it cannot. */
  type Clock = int -> string

  function Timestamp(v: Json, clock: Clock): string {
    var number := JsonNumber(v);
    if !v.JObj? || Get(v.fields, "set") == JBool(false) || number.None? || number.value <= 0 then "" else clock(number.value)
  }

  function TwoDigits(n: nat): string {
    Nodelist.ZFill(Nodelist.Show(n), 2)
  }

  function DurationMinutes(v: Json): string {
    if v.JObj? && Get(v.fields, "infinite") == JBool(true) then "UNLIMITED"
    else
      var minutes := JsonNumber(v);
      if minutes.None? || minutes.value < 0 then ""
      else
        var seconds := minutes.value * 60;
        var (days, rest) := (seconds / 86400, seconds % 86400);
        (if days > 0 then Nodelist.Show(days) + "-" else "")
        + TwoDigits(rest / 3600) + ":" + TwoDigits(rest % 3600 / 60) + ":" + TwoDigits(rest % 60)
  }

  // ---------------------------------------------------------------------------
  // The published keys and their values
  // ---------------------------------------------------------------------------

  // Who runs the job and under which policy; when and where it runs; what it holds.

  datatype IdentityKey =
    | JobId | ArrayJobId | ArrayTaskId | JobName | UserId | Priority | Nice | Account | QOS | JobState |
    Reason | Dependency | Requeue | Restarts | BatchFlag

  datatype ScheduleKey =
    | TimeLimit | SubmitTime | EligibleTime | StartTime | EndTime | Deadline | SuspendTime | LastSchedEval |
    Partition | ReqNodeList | ExcNodeList | NodeList | BatchHost | NumNodes | NumCPUs | NumTasks

  datatype ResourceKey =
    | CPUsPerTask | ReqTRES | AllocTRES | MinCPUsNode | MinMemoryNode | MinTmpDiskNode | Features |
    OverSubscribe | Contiguous | Licenses | Network | TresPerNode | TresPerTask | TresPerSocket | TresPerJob

  datatype Key = Identity(identity: IdentityKey) | Schedule(schedule: ScheduleKey) | Resource(resource: ResourceKey)

  const IDENTITY_ORDER: seq<Key> := [
    Identity(JobId), Identity(ArrayJobId), Identity(ArrayTaskId), Identity(JobName), Identity(UserId),
    Identity(Priority), Identity(Nice), Identity(Account), Identity(QOS), Identity(JobState),
    Identity(Reason), Identity(Dependency), Identity(Requeue), Identity(Restarts), Identity(BatchFlag)]

  const SCHEDULE_ORDER: seq<Key> := [
    Schedule(TimeLimit), Schedule(SubmitTime), Schedule(EligibleTime), Schedule(StartTime), Schedule(EndTime),
    Schedule(Deadline), Schedule(SuspendTime), Schedule(LastSchedEval), Schedule(Partition),
    Schedule(ReqNodeList), Schedule(ExcNodeList), Schedule(NodeList), Schedule(BatchHost), Schedule(NumNodes),
    Schedule(NumCPUs), Schedule(NumTasks)]

  const RESOURCE_ORDER: seq<Key> := [
    Resource(CPUsPerTask), Resource(ReqTRES), Resource(AllocTRES),
    Resource(MinCPUsNode), Resource(MinMemoryNode), Resource(MinTmpDiskNode), Resource(Features),
    Resource(OverSubscribe), Resource(Contiguous), Resource(Licenses), Resource(Network),
    Resource(TresPerNode), Resource(TresPerTask), Resource(TresPerSocket), Resource(TresPerJob)]

  /** The order in which the fields are printed. */
  const ORDER: seq<Key> := IDENTITY_ORDER + SCHEDULE_ORDER + RESOURCE_ORDER

  function IdentityText(k: IdentityKey): string {
    match k
    case JobId => "JobId"
    case ArrayJobId => "ArrayJobId"
    case ArrayTaskId => "ArrayTaskId"
    case JobName => "JobName"
    case UserId => "UserId"
    case Priority => "Priority"
    case Nice => "Nice"
    case Account => "Account"
    case QOS => "QOS"
    case JobState => "JobState"
    case Reason => "Reason"
    case Dependency => "Dependency"
    case Requeue => "Requeue"
    case Restarts => "Restarts"
    case BatchFlag => "BatchFlag"
  }

  function ScheduleText(k: ScheduleKey): string {
    match k
    case TimeLimit => "TimeLimit"
    case SubmitTime => "SubmitTime"
    case EligibleTime => "EligibleTime"
    case StartTime => "StartTime"
    case EndTime => "EndTime"
    case Deadline => "Deadline"
    case SuspendTime => "SuspendTime"
    case LastSchedEval => "LastSchedEval"
    case Partition => "Partition"
    case ReqNodeList => "ReqNodeList"
    case ExcNodeList => "ExcNodeList"
    case NodeList => "NodeList"
    case BatchHost => "BatchHost"
    case NumNodes => "NumNodes"
    case NumCPUs => "NumCPUs"
    case NumTasks => "NumTasks"
  }

  function ResourceText(k: ResourceKey): string {
    match k
    case CPUsPerTask => "CPUs/Task"
    case ReqTRES => "ReqTRES"
    case AllocTRES => "AllocTRES"
    case MinCPUsNode => "MinCPUsNode"
    case MinMemoryNode => "MinMemoryNode"
    case MinTmpDiskNode => "MinTmpDiskNode"
    case Features => "Features"
    case OverSubscribe => "OverSubscribe"
    case Contiguous => "Contiguous"
    case Licenses => "Licenses"
    case Network => "Network"
    case TresPerNode => "TresPerNode"
    case TresPerTask => "TresPerTask"
    case TresPerSocket => "TresPerSocket"
    case TresPerJob => "TresPerJob"
  }

  function Text(k: Key): string {
    match k
    case Identity(identity) => IdentityText(identity)
    case Schedule(schedule) => ScheduleText(schedule)
    case Resource(resource) => ResourceText(resource)
  }

  function FirstId(record: Record): string {
    var id := JsonNumber(Get(record, "job_id"));
    if id.None? || id.value <= 0 then "" else ShowInt(id.value)
  }

  function ArrayId(record: Record): int {
    var id := JsonNumber(Get(record, "array_job_id"));
    if id.None? then 0 else id.value
  }

  function ArrayTask(record: Record): string {
    if ArrayId(record) <= 0 then ""
    else
      var task := WrappedScalar(Get(record, "array_task_id"));
      if task != "" then task else PublicScalar(Get(record, "array_task_string"))
  }

  function UserAndUid(record: Record): string {
    var (user, uid) := (PublicScalar(Get(record, "user_name")), JsonNumber(Get(record, "user_id")));
    if user != "" && uid.Some? then user + "(" + ShowInt(uid.value) + ")" else user
  }

  // The sanitised value of one published field; an empty one is not printed.

  function IdentityValue(record: Record, k: IdentityKey): string {
    match k
    case JobId => FirstId(record)
    case ArrayJobId => if ArrayId(record) > 0 then ShowInt(ArrayId(record)) else ""
    case ArrayTaskId => ArrayTask(record)
    case JobName => PublicScalar(Get(record, "name"))
    case UserId => UserAndUid(record)
    case Priority => WrappedScalar(Get(record, "priority"))
    case Nice => PublicScalar(Get(record, "nice"))
    case Account => PublicScalar(Get(record, "account"))
    case QOS => PublicScalar(Get(record, "qos"))
    case JobState => PublicScalar(Get(record, "job_state"))
    case Reason => PublicScalar(Get(record, "state_reason"))
    case Dependency => PublicScalar(Get(record, "dependency"))
    case Requeue => PublicScalar(Get(record, "requeue"))
    case Restarts => PublicScalar(Get(record, "restart_cnt"))
    case BatchFlag => PublicScalar(Get(record, "batch_flag"))
  }

  function ScheduleValue(record: Record, clock: Clock, k: ScheduleKey): string {
    match k
    case TimeLimit => DurationMinutes(Get(record, "time_limit"))
    case SubmitTime => Timestamp(Get(record, "submit_time"), clock)
    case EligibleTime => Timestamp(Get(record, "eligible_time"), clock)
    case StartTime => Timestamp(Get(record, "start_time"), clock)
    case EndTime => Timestamp(Get(record, "end_time"), clock)
    case Deadline => Timestamp(Get(record, "deadline"), clock)
    case SuspendTime => Timestamp(Get(record, "suspend_time"), clock)
    case LastSchedEval => Timestamp(Get(record, "last_sched_evaluation"), clock)
    case Partition => PublicScalar(Get(record, "partition"))
    case ReqNodeList => PublicScalar(Get(record, "required_nodes"))
    case ExcNodeList => PublicScalar(Get(record, "excluded_nodes"))
    case NodeList => PublicScalar(Get(record, "nodes"))
    case BatchHost => PublicScalar(Get(record, "batch_host"))
    case NumNodes => WrappedScalar(Get(record, "node_count"))
    case NumCPUs => WrappedScalar(Get(record, "cpus"))
    case NumTasks => WrappedScalar(Get(record, "tasks"))
  }

  function ResourceValue(record: Record, k: ResourceKey): string {
    match k
    case CPUsPerTask => WrappedScalar(Get(record, "cpus_per_task"))
    case ReqTRES => PublicScalar(Get(record, "tres_req_str"))
    case AllocTRES => PublicScalar(Get(record, "tres_alloc_str"))
    case MinCPUsNode => WrappedScalar(Get(record, "minimum_cpus_per_node"))
    case MinMemoryNode => WrappedScalar(Get(record, "memory_per_node"))
    case MinTmpDiskNode => WrappedScalar(Get(record, "minimum_tmp_disk_per_node"))
    case Features => PublicScalar(Get(record, "features"))
    case OverSubscribe => PublicScalar(Get(record, "oversubscribe"))
    case Contiguous => PublicScalar(Get(record, "contiguous"))
    case Licenses => PublicScalar(Get(record, "licenses"))
    case Network => PublicScalar(Get(record, "network"))
    case TresPerNode => PublicScalar(Get(record, "tres_per_node"))
    case TresPerTask => PublicScalar(Get(record, "tres_per_task"))
    case TresPerSocket => PublicScalar(Get(record, "tres_per_socket"))
    case TresPerJob => PublicScalar(Get(record, "tres_per_job"))
  }

  function Value(record: Record, clock: Clock, k: Key): string {
    match k
    case Identity(identity) => IdentityValue(record, identity)
    case Schedule(schedule) => ScheduleValue(record, clock, schedule)
    case Resource(resource) => ResourceValue(record, resource)
  }

  /** The key a text spells, read off its length and a few of its characters. */
  function Spelled(s: string): Key {
    match |s|
    case 3 => Identity(QOS)
    case 4 => Identity(Nice)
    case 5 => Identity(JobId)
    case 6 => if s[0] == 'U' then Identity(UserId) else Identity(Reason)
    case 7 =>
      if s[4] == 'a' then Identity(JobName) else if s[4] == 'u' then Identity(Account) else if s[4] == 'e' then Identity(Requeue)
      else if s[4] == 'i' then Schedule(EndTime) else if s[4] == 'P' then Schedule(NumCPUs) else if s[4] == 'R' then Resource(ReqTRES)
      else Resource(Network)
    case 8 =>
      if s[4] == 'r' then Identity(Priority) else if s[4] == 't' then Identity(JobState)
      else if s[4] == 'a' then (if s[0] == 'R' then Identity(Restarts) else Schedule(NumTasks))
      else if s[4] == 'l' then Schedule(Deadline) else if s[4] == 'L' then Schedule(NodeList) else if s[4] == 'o' then Schedule(NumNodes)
      else if s[4] == 'u' then Resource(Features) else Resource(Licenses)
    case 9 =>
      if s[0] == 'B' then (if s[5] == 'F' then Identity(BatchFlag) else Schedule(BatchHost)) else if s[0] == 'T' then Schedule(TimeLimit)
      else if s[0] == 'S' then Schedule(StartTime) else if s[0] == 'P' then Schedule(Partition)
      else if s[0] == 'C' then Resource(CPUsPerTask) else Resource(AllocTRES)
    case 10 =>
      if s[0] == 'A' then Identity(ArrayJobId) else if s[0] == 'D' then Identity(Dependency) else if s[0] == 'S' then Schedule(SubmitTime)
      else if s[0] == 'C' then Resource(Contiguous) else Resource(TresPerJob)
    case 11 =>
      if s[0] == 'A' then Identity(ArrayTaskId) else if s[0] == 'S' then Schedule(SuspendTime)
      else if s[0] == 'R' then Schedule(ReqNodeList) else if s[0] == 'E' then Schedule(ExcNodeList)
      else if s[0] == 'M' then Resource(MinCPUsNode) else (if s[7] == 'N' then Resource(TresPerNode) else Resource(TresPerTask))
    case 12 => Schedule(EligibleTime)
    case 13 =>
      if s[0] == 'L' then Schedule(LastSchedEval) else if s[0] == 'M' then Resource(MinMemoryNode)
      else if s[0] == 'O' then Resource(OverSubscribe) else Resource(TresPerSocket)
    case 14 => Resource(MinTmpDiskNode)
    case _ => Identity(JobId)
  }

  lemma IdentitySpelled(k: IdentityKey)
    ensures Spelled(IdentityText(k)) == Identity(k)
  {
  }

  lemma ScheduleSpelled(k: ScheduleKey)
    ensures Spelled(ScheduleText(k)) == Schedule(k)
  {
  }

  lemma ResourceSpelled(k: ResourceKey)
    ensures Spelled(ResourceText(k)) == Resource(k)
  {
  }

  /** Different keys have different texts. */
  lemma TextsDiffer(a: Key, b: Key)
    requires Text(a) == Text(b)
    ensures a == b
  {
    SpelledText(a);
    SpelledText(b);
    hide Text, Spelled;
  }

  lemma SpelledText(k: Key)
    ensures Spelled(Text(k)) == k
  {
    hide IdentityText, ScheduleText, ResourceText, Spelled;
    match k
    case Identity(identity) => IdentitySpelled(identity);
    case Schedule(schedule) => ScheduleSpelled(schedule);
    case Resource(resource) => ResourceSpelled(resource);
  }

  lemma IdentityListed(k: IdentityKey)
    ensures Identity(k) in IDENTITY_ORDER
  {
  }

  lemma ScheduleListed(k: ScheduleKey)
    ensures Schedule(k) in SCHEDULE_ORDER
  {
  }

  lemma ResourceListed(k: ResourceKey)
    ensures Resource(k) in RESOURCE_ORDER
  {
  }

  /** Every published key is printed. */
  lemma EveryKeyIsListed(k: Key)
    ensures k in ORDER
  {
    match k
    case Identity(identity) => IdentityListed(identity);
    case Schedule(schedule) => ScheduleListed(schedule);
    case Resource(resource) => ResourceListed(resource);
  }

  lemma IdentityPlain(k: IdentityKey, c: char)
    requires c in IdentityText(k)
    ensures KeyChar(c)
  {
  }

  lemma SchedulePlain(k: ScheduleKey, c: char)
    requires c in ScheduleText(k)
    ensures KeyChar(c)
  {
  }

  lemma ResourcePlain(k: ResourceKey, c: char)
    requires c in ResourceText(k)
    ensures KeyChar(c)
  {
  }

  lemma TextIsPlain(k: Key)
    ensures PlainKey(Text(k))
  {
    hide IdentityText, ScheduleText, ResourceText, KeyChar;
    forall i | 0 <= i < |Text(k)| ensures KeyChar(Text(k)[i]) {
      var c := Text(k)[i];
      match k
      case Identity(identity) => IdentityPlain(identity, c);
      case Schedule(schedule) => SchedulePlain(schedule, c);
      case Resource(resource) => ResourcePlain(resource, c);
    }
  }

  // ---------------------------------------------------------------------------
  // The detail text
  // ---------------------------------------------------------------------------

  function Fields(record: Record, clock: Clock): seq<Field> {
    seq(|ORDER|, i requires 0 <= i < |ORDER| => (Text(ORDER[i]), Value(record, clock, ORDER[i])))
  }

  const JOB_DETAIL_MAX_CHARS := 16 * 1024

  /** The detail of a record; a record without a job id has none. */
  function JobDetail(record: Record, clock: Clock): string {
    if FirstId(record) == "" then "" else Print(Fields(record, clock), JOB_DETAIL_MAX_CHARS)
  }

  function PublishedField(detail: string, name: string): string {
    Lookup(detail, name)
  }

  // ---------------------------------------------------------------------------
  // Values stay on one line
  // ---------------------------------------------------------------------------

  lemma {:induction false} JoinOneLine(ws: seq<string>, sep: char)
    requires !IsBreak(sep) && forall i :: 0 <= i < |ws| ==> OneLine(ws[i])
    ensures OneLine(Nodelist.Join(ws, sep))
  {
    hide IsBreak;
    if |ws| > 1 {
      JoinOneLine(ws[1..], sep);
    }
  }

  lemma WordOneLine(w: string)
    requires forall i :: 0 <= i < |w| ==> !Nodelist.IsSpace(w[i])
    ensures OneLine(w)
  {
  }

  /** A sanitised text has one line, whatever went in. */
  lemma SanitiseOneLine(text: string, limit: nat)
    ensures OneLine(Sanitise(text, limit)) && |Sanitise(text, limit)| <= limit
  {
    var ws := Words(text);
    assert !IsBreak(' ');
    hide Words, IsBreak, Nodelist.IsSpace;
    forall i | 0 <= i < |ws| ensures OneLine(ws[i]) {
      assert ws[i] in ws;
      WordOneLine(ws[i]);
    }
    JoinOneLine(ws, ' ');
  }

  lemma PublicScalarOneLine(v: Json)
    ensures OneLine(PublicScalar(v)) && |PublicScalar(v)| <= SCALAR_LIMIT
  {
    hide Sanitise, Nodelist.Show;
    match v
    case JInt(n) => SanitiseOneLine(ShowInt(n), SCALAR_LIMIT);
    case JFloat(text) => SanitiseOneLine(text, SCALAR_LIMIT);
    case JStr(text) => SanitiseOneLine(text, SCALAR_LIMIT);
    case JList(items) => SanitiseOneLine(Nodelist.Join(PublicParts(items), ','), SCALAR_LIMIT);
    case _ =>
  }

  lemma DigitsOneLine(s: string)
    requires Nodelist.AllDigits(s)
    ensures OneLine(s)
  {
    forall i | 0 <= i < |s| ensures !IsBreak(s[i]) {
      assert Nodelist.IsDigit(s[i]);
    }
  }

  lemma {:induction false} ZFillDigits(s: string, width: nat)
    requires Nodelist.AllDigits(s)
    ensures Nodelist.AllDigits(Nodelist.ZFill(s, width))
    decreases width - |s|
  {
    if |s| < width {
      ZFillDigits("0" + s, width);
    }
  }

  lemma NumbersOneLine(n: nat)
    ensures OneLine(Nodelist.Show(n)) && OneLine(TwoDigits(n))
  {
    ZFillDigits(Nodelist.Show(n), 2);
    DigitsOneLine(Nodelist.Show(n));
    DigitsOneLine(TwoDigits(n));
  }

  lemma IntOneLine(n: int)
    ensures OneLine(ShowInt(n))
  {
    NumbersOneLine(if n < 0 then -n else n);
    hide Nodelist.Show;
  }

  lemma DurationOneLine(v: Json)
    ensures OneLine(DurationMinutes(v))
  {
    hide Nodelist.Show, TwoDigits;
    forall n: nat ensures OneLine(Nodelist.Show(n)) && OneLine(TwoDigits(n)) {
      NumbersOneLine(n);
    }
  }

  lemma WrappedOneLine(v: Json)
    ensures OneLine(WrappedScalar(v))
  {
    PublicScalarOneLine(v);
    if v.JObj? {
      PublicScalarOneLine(Get(v.fields, "number"));
    }
    hide PublicScalar;
  }

  ghost predicate ClockOneLine(clock: Clock) {
    forall n :: OneLine(clock(n))
  }

  lemma TimestampOneLine(v: Json, clock: Clock)
    requires ClockOneLine(clock)
    ensures OneLine(Timestamp(v, clock))
  {
  }

  lemma IdentityOneLine(record: Record)
    ensures OneLine(FirstId(record)) && OneLine(UserAndUid(record)) && OneLine(ArrayTask(record))
    ensures OneLine(if ArrayId(record) > 0 then ShowInt(ArrayId(record)) else "")
  {
    hide PublicScalar, WrappedScalar, ShowInt;
    forall v ensures OneLine(PublicScalar(v)) && OneLine(WrappedScalar(v)) {
      PublicScalarOneLine(v);
      WrappedOneLine(v);
    }
    forall n ensures OneLine(ShowInt(n)) {
      IntOneLine(n);
    }
  }

  lemma ValueOneLine(record: Record, clock: Clock, k: Key)
    requires ClockOneLine(clock)
    ensures OneLine(Value(record, clock, k))
  {
    hide PublicScalar, WrappedScalar, DurationMinutes, Timestamp, FirstId, UserAndUid, ArrayTask, ArrayId, ShowInt, OneLine, Get, Text;
    forall v ensures OneLine(PublicScalar(v)) && OneLine(WrappedScalar(v)) && OneLine(DurationMinutes(v)) && OneLine(Timestamp(v, clock)) {
      PublicScalarOneLine(v);
      WrappedOneLine(v);
      DurationOneLine(v);
      TimestampOneLine(v, clock);
    }
    IdentityOneLine(record);
  }

  lemma FieldsArePrintable(record: Record, clock: Clock)
    requires ClockOneLine(clock)
    ensures Printable(Fields(record, clock))
  {
    hide Text, Value, PlainKey, OneLine;
    var fs := Fields(record, clock);
    forall i | 0 <= i < |fs| ensures PlainKey(fs[i].0) && OneLine(fs[i].1) {
      TextIsPlain(ORDER[i]);
      ValueOneLine(record, clock, ORDER[i]);
    }
  }

  // ---------------------------------------------------------------------------
  // Looking fields up
  // ---------------------------------------------------------------------------

  lemma NoEqualsSign(s: string)
    requires PlainKey(s)
    ensures '=' !in s
  {
  }

  /** For every record and published key, the lookup returns a prefix of that
      field's own value, and the whole value when its line fits under the cap. */
  lemma LookupGivesOwnValue(record: Record, clock: Clock, i: nat)
    requires ClockOneLine(clock) && FirstId(record) != "" && i < |ORDER|
    ensures var name, v := Text(ORDER[i]), Value(record, clock, ORDER[i]);
      && StartsWith(v, PublishedField(JobDetail(record, clock), name))
      && (EndOfLine(Fields(record, clock), name) <= JOB_DETAIL_MAX_CHARS ==>
           PublishedField(JobDetail(record, clock), name) == v)
  {
    var fs, k := Fields(record, clock), ORDER[i];
    FieldsArePrintable(record, clock);
    hide Text, Value, Print, Lookup, EndOfLine, StartsWith;
    assert fs[i].0 == Text(k);
    NoEqualsSign(Text(k));
    forall j | 0 <= j < |fs| && fs[j].0 == Text(k) ensures fs[j].1 == Value(record, clock, k) {
      TextsDiffer(ORDER[j], k);
    }
    LookupAnswers(fs, JOB_DETAIL_MAX_CHARS, Text(k), Value(record, clock, k));
  }

  /** Whatever the submitter wrote, no name other than a published key finds anything. */
  lemma NoForgedField(record: Record, clock: Clock, name: string)
    requires ClockOneLine(clock) && '=' !in name && forall k :: Text(k) != name
    ensures PublishedField(JobDetail(record, clock), name) == ""
  {
    FieldsArePrintable(record, clock);
    hide Text, Value, Print, EndOfLine;
    if FirstId(record) == "" {
    } else {
      hide Lookup;
      LookupAnswers(Fields(record, clock), JOB_DETAIL_MAX_CHARS, name, "");
    }
  }
}
