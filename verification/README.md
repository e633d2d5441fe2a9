# sgpu: verified models of the collector, the notifier and the schedulers' parsers

sgpu watches the GPUs of a SLURM cluster. A collector polls nodes, mirrors job
logs into a world-readable spool, attributes GPUs to jobs, keeps GPU-hour
accounts and posts alerts; a command-line client follows mirrored logs. This
project models the parts of it that carry state or a non-trivial algorithm, in
Dafny, and proves what those parts are for. `dafny verify dfyconfig.toml` checks
everything.

| file | models |
|---|---|
| `LogMirror.dfy` | the log-mirror protocol: main thread, worker threads, seed tokens, spool files |
| `Overlap.dfy` | the prefix-function search behind `sgpu logs -f`, and the follow loop that uses it |
| `Nodelist.dfy` | strict and lenient expansion of compressed node lists, on text |
| `NodelistText.dfy` | what a written node list stands for: numerals, ranges, products, lists |
| `Legacy.dfy` | authorising ambiguous `scontrol -o` lines against two queue rosters |
| `LegacyLines.dfy` | which legacy lines are believed, and what the parser then knows and rejects |
| `LegacyClaims.dfy` | which cards the segments of a legacy line claim, and what is allocated for them |
| `GpuBinding.dfy` | the three-phase binding of a node's allocations to its cards |
| `GpuEvidence.dfy` | what each kind of evidence is worth in that binding |
| `DetailText.dfy`, `Detail.dfy` | the published job detail text and looking fields up in it |
| `DetailValues.dfy` | what the printed values still say |
| `Polling.dfy` | admission of background polls with a rotating cursor, each scan taken as one step |
| `LivePolling.dfy` | the same scan while polls end in the middle of it |
| `Sacct.dfy`, `Usage.dfy` | GPU-hour accounting: day split, sampling, pruning, merge of both sources |
| `WasteTimers.dfy` | the idle and parked timers of each card |
| `CpuShares.dfy` | splitting CPUs of multi-node jobs over nodes |
| `Notifier.dfy` | node-down and telemetry-lost alerts: grace, debounce marks, release after failed delivery, pruning |
| `Outcomes.dfy` | job outcomes: tracking, batches, back-pressure of the outcome queue |
| `CgroupScan.dfy` | the bounded breadth-first scan of control groups and its descriptors |
| `CgroupRates.dfy` | the CPU rates that scan reports over a run |
| `Common.dfy`, `Sums.dfy` | sums over sequences and sets |

How the pieces are built. Code that updates fields is a class whose methods are
proved equal to a specification function of the old state (`Step`, `Sampled`,
`Bfs`, ...); the theorems are about that function over all runs. Code that loops
over local variables is a method with invariants. Where it helps, a state carries
a record of what happened (`history`, `log`), and the theorems compare the state
with reference definitions that read the record alone, such as "the start of the
trailing run of down observations" or "the directories of the tree that resolve
to this job, counted depth first".

Modelling choices that matter for reading the theorems:

- Times are reals or integers that never go back; amounts of time are reals.
- The log mirror takes each lock-held section and each unlocked unlink as one
  atomic step and lets worker and main-thread steps interleave freely; a worker
  may also raise at any step. Tokens are fresh numbers. A log read is an oracle
  that yields bytes with a fingerprint that determines them.
- Which jobs are due for mirroring, which nodes are due for a poll, whether the
  outcome queue has room, and everything the file system answers are inputs.
- The notifier's grace periods, gaps and switches are arbitrary; the threshold for waste, the
  limit on a sampling gap and the mirror's and scan's bounds have their default
  values.
- Records of the legacy parser start after tokenising: claimed ids and parsed
  fields of each line.

Where the code does less than it might seem to promise, the exact condition is
proved:

- The day-splitting loop ends if and only if no instant of the job lies beyond
  the 86400th second of its local day (`Sacct.TerminationCondition`); a job that
  runs into the extra hour of a 25-hour day keeps the loop busy for ever
  (`Sacct.ExtraHourNeverEnds`).
- When it ends, its segments keep to the local days they are keyed to, and a
  job's buckets are its GPUs times its overlap with each local day, if and only
  if no local day that it runs through is over before its 86400th second
  (`Sacct.OwnDaysIff`, `Sacct.ExactIff`, `Sacct.JobBucketsIff`); a 23-hour day
  takes in an hour of the next (`Sacct.ShortDaySpills`).
- `sgpu logs -f` never repeats bytes, but new bytes that look like old ones are
  swallowed; `Overlap.PrintsAllNewBytes` says exactly when none are.
- A node that waits for a poll is passed by in a scan if and only if it met a
  full pool from which a poll then ended in time for a later node
  (`LivePolling.PassedByIff`); never when nothing is freed after its own turn
  (`LivePolling.NotPassedBy`). Each such scan costs it at most one round
  (`LivePolling.LiveBypassBound`), and it can happen in every scan
  (`LivePolling.PassedByForEver`).
- Identities are monotone under appended lines; GPU slots are not. A slot is
  allocated after appending if and only if one claim to it is left in all
  (`Legacy.SlotAfterAppending`), so repeating one of two lines that contest a
  card hands it to the other (`Legacy.ContestedCardIsHandedOver`). Lines that
  claim no id of the original ones free nothing for these
  (`Legacy.ForeignLinesFreeNothing`).
- A GPU's busy and wasted time fit into its observed time if and only if cards
  that were both do not outweigh cards that were neither
  (`Usage.BusyPlusWaste`); a card is both exactly when it computes while its job
  has been without a process for long enough (`Usage.BusyAndWastedIff`).
- A published stream has its file unless the main thread reset the stream while
  a worker with the current token stood between seeing the file and publishing
  it again: no other step can take the file away (`LogMirror.LosesFileIff`), this
  one does (`LogMirror.ResetUnderReaderLosesIt`), and it can be reached
  (`LogMirror.ResetUnderReaderHappens`).
- A failed delivery frees the debounce slot but does not make an alarm fire again
  (`Notifier.AlarmFiresOncePerOutage`).

## Model

| member | source | states |
|---|---|---|
| `LogMirror.RunSound` | src/sgpu/collector.py:544-793 | the protocol invariant holds after every interleaving of cycles, main-thread steps, worker steps and worker failures |
| `LogMirror.EveryFileIsCurrent` | src/sgpu/collector.py:697-793 | every spool file belongs to a live job and holds bytes that a worker of that job read from its current (path, owner) seed while holding the token that is current now, unless the main thread's unlink of it is still pending; between cycles there is no exception |
| `LogMirror.StaleWorkerIsInert` | src/sgpu/collector.py:544-642 | a worker whose token is no longer current changes neither files, fingerprints nor published streams |
| `LogMirror.StaleForever` | src/sgpu/collector.py:720-752 | a token that was replaced or dropped never becomes current again |
| `LogMirror.CycleDooms` | src/sgpu/collector.py:720-775 | a cycle schedules a mirrored file for removal exactly when its job left the queue or came with other or no metadata |
| `LogMirror.UndisturbedCycle` | src/sgpu/collector.py:697-793 | a cycle no worker disturbs removes exactly those files and leaves all others' bytes alone |
| `LogMirror.CycleStoresRows` | src/sgpu/collector.py:720-781 | after an undisturbed cycle from any state exactly the jobs with a usable row have log paths and an owner, those of their last usable row, and exactly the listed jobs are live |
| `LogMirror.UsableRows` | src/sgpu/collector.py:720-753 | a job has a usable row exactly if one of its rows has log paths and a user id of 0 or more, and the last of these decides |
| `LogMirror.ListedJobIsMirrored` | src/sgpu/collector.py:566-793 | from the queue to the spool: after such a cycle the mirror of a listed job leaves each stream with the bytes of the source its last usable row names, and other jobs' streams alone |
| `LogMirror.JobPassMirrors` | src/sgpu/collector.py:566-642 | a worker of the protocol that nothing interrupts does to the shared state what mirroring the job's two streams does |
| `LogMirror.OneMirrorPerJob` | src/sgpu/collector.py:767-783 | at most one unfinished worker mirrors a job |
| `LogMirror.StreamPassMirrors` | src/sgpu/collector.py:589-632 | whatever its token, a worker's uninterrupted pass over a stream changes the shared state as copying every readable source would: skipping an unchanged one makes no difference |
| `LogMirror.StreamPassCopies` | src/sgpu/collector.py:589-632 | so a worker that may publish leaves a copy of the source, and a failed source unpublished |
| `LogMirror.LosesFileIff` | src/sgpu/collector.py:613-618 | in a reachable state a stream that is published, or about to be, loses its file in a step exactly if that step resets it under a worker that has just seen the file |
| `LogMirror.PublishedHasItsFile` | src/sgpu/collector.py:544-663 | after every run without such a reset, each published stream has its file |
| `LogMirror.ResetUnderReaderLosesIt` | src/sgpu/collector.py:613-618 | after such a reset that worker's next step publishes a stream without a file |
| `LogMirror.ResetUnderReaderHappens` | src/sgpu/collector.py:589-618 | a run that reaches such a reset: the path of a job changes to another link to the same file |
| `LogMirror.Collector.FreshToken` | src/sgpu/collector.py:574-577 | a token that was never handed out before |
| `LogMirror.Collector.Reseeding` | src/sgpu/collector.py:720-775 | the lock-held section: new seeds, resets, jobs gone and jobs to mirror |
| `LogMirror.Collector.UnpublishLogStream` | src/sgpu/collector.py:544-563 | removes one stream's file and bookkeeping, with a token only while that token is current |
| `LogMirror.Collector.ApplyResets` | src/sgpu/collector.py:776-777 | all resets of a cycle, each guarded by its own token |
| `LogMirror.Collector.DropLogSpool` | src/sgpu/collector.py:645-663 | for any job, the whole state after the drop: files, fingerprints, owner, token and liveness of it go, as the protocol's steps after the popping of its paths do it, and nothing else changes |
| `LogMirror.Collector.DropGone` | src/sgpu/collector.py:778-781 | the same for every job that left the queue |
| `LogMirror.Collector.ShareLogs` | src/sgpu/collector.py:697-793 | one whole undisturbed cycle, as the protocol's own steps perform it |
| `LogMirror.Collector.MirrorStream` | src/sgpu/collector.py:589-632 | one stream under any token: the whole state becomes what copying a readable source makes it, although an unchanged one is not copied |
| `LogMirror.Collector.MirrorOneJobLog` | src/sgpu/collector.py:566-642 | the whole state after mirroring a job, live or not: both streams under its token, and the job no longer in flight; a live job's files are copies |
| `Overlap.ExtendBorder` | src/sgpu/cli.py:567-572 | the longest border one position on, with the work paid for by the border's length |
| `Overlap.SuffixPrefixOverlap` | src/sgpu/cli.py:556-573 | the greatest number of bytes that end `previous` and begin `current`; the inner loop turns at most as often as the sequence is long |
| `Overlap.BorderIsOverlap` | src/sgpu/cli.py:561-573 | every border of the joined sequence is an overlap |
| `Overlap.OverlapIsBorder` | src/sgpu/cli.py:561-573 | every overlap is a border of the joined sequence |
| `Overlap.ShortestExtension` | src/sgpu/cli.py:506-515 | `previous` and the new suffix form the shortest extension of `previous` that ends in `current` |
| `Overlap.PrintsOnlyNewBytes` | src/sgpu/cli.py:501-522 | when a log only grew, what is printed is a suffix of what it gained |
| `Overlap.PrintsAllNewBytes` | src/sgpu/cli.py:501-522 | it is all of that exactly when the mirror reaches back far enough and no longer overlap is possible |
| `Overlap.RepeatedBytesAreSwallowed` | src/sgpu/cli.py:506-515 | a log of equal bytes, where it is not |
| `Overlap.FollowMirror` | src/sgpu/cli.py:484-533 | following a mirror whose bytes change only with its inode prints the mirrors laid over each other with the largest overlaps, from the start position on |
| `Overlap.LaidEndsInLast` | src/sgpu/cli.py:501-522 | laid over each other the mirrors form one text that begins with the first and ends in the last |
| `Overlap.FollowFile` | src/sgpu/cli.py:523-533 | following any other file, with every way it may grow, shrink or be missing |
| `Overlap.GrowingIsPrinted` | src/sgpu/cli.py:523-533 | while it only grows, exactly its bytes are printed from where reading began: the start position, or the beginning after each time it got shorter |
| `Overlap.AppendedIsPrinted` | src/sgpu/cli.py:523-533 | a file that is only appended to is printed from 4096 bytes before its end, or from its beginning, up to its last end, and nothing twice |
| `Nodelist.SplitTopLevel` | src/sgpu/common.py:659-675 | the parts between commas outside brackets, trimmed, blank ones left out |
| `Nodelist.RawPartsJoin` | src/sgpu/common.py:659-675 | splitting loses nothing but the separating commas |
| `Nodelist.StrictRangeValues` | src/sgpu/common.py:447-466 | the values of a bracket, or nothing when it is malformed, backwards or over the limit |
| `Nodelist.ExpandRangeSpec` | src/sgpu/common.py:678-691 | the values of a bracket, odd parts kept as they are |
| `Nodelist.StrictExpandNodes` | src/sgpu/common.py:469-504 | the sorted hosts of a well-formed list within the limits, nothing otherwise |
| `Nodelist.ExpandNodelist` | src/sgpu/common.py:694-718 | the hosts in the order written |
| `Nodelist.ExpandersAgree` | src/sgpu/common.py:447-718 | whenever strict expansion accepts an expression that is no null marker, its result is the sorted, duplicate-free permutation of the lenient one, text for text, with 1 to 4096 hosts |
| `NodelistText.NumeralUnique` | src/sgpu/common.py:461 | there is only one decimal numeral of a number with a given least width, without needless zeros |
| `NodelistText.RangeAt` | src/sgpu/common.py:461 | value i of a range is that numeral of its first number plus i, at least as wide as the first was written |
| `NodelistText.StrictPartIs` | src/sgpu/common.py:449-465 | strict parsing takes a number or range exactly if its values fit, and then as those numerals |
| `NodelistText.LenientPartIs` | src/sgpu/common.py:678-691 | lenient parsing takes them too, except that a range of more than 100000 values stays as written |
| `NodelistText.NamesAre` | src/sgpu/common.py:717 | the product of the groups of a name lists every combination once, the last group turning fastest |
| `NodelistText.ExpandReads` | src/sgpu/common.py:694-718 | a written list of names with brackets is read as the hosts that it spells out, in the order written |
| `NodelistText.StrictReads` | src/sgpu/common.py:469-504 | strict expansion reads it as the same hosts, sorted, exactly if they are distinct and within the limits |
| `NodelistText.RangeOfHosts` | src/sgpu/common.py:447-718 | for a prefix with one range both expanders give its numbers in order with the zero padding of the first |
| `NodelistText.NoHostsIff` | src/sgpu/common.py:469-504 | strict expansion finds no host exactly for the three texts that stand for none |
| `Legacy.CountClaims` | src/sgpu/common.py:1199-1212 | how many lines claim each id |
| `Legacy.JudgeLine` | src/sgpu/common.py:1228-1286 | whether a line is ignored, rejected or accepted, and with which anchor |
| `Legacy.LegacyGpuClaims` | src/sgpu/common.py:1144-1170 | a line's slots, or nothing when its segments repeat a node, leave the placement or do not cover it |
| `Legacy.ReadRecords` | src/sgpu/common.py:1228-1302 | the identities kept, the ids refused and every slot's claims |
| `Legacy.ResolveSlots` | src/sgpu/common.py:1304-1310 | a slot goes to its one claim, any other number of claims rejects all of them |
| `Legacy.ParseLegacyJobs` | src/sgpu/common.py:1181-1311 | oversized output is refused; otherwise the result is the parse that the lines and the rosters determine |
| `Legacy.ParseIsUnique` | src/sgpu/common.py:1181-1311 | there is only one such parse |
| `Legacy.KeptIdentities` | src/sgpu/common.py:1228-1294 | an identity is kept only if exactly one line claims it and that line agrees with an anchor equal in both rosters |
| `Legacy.AllocatedSlots` | src/sgpu/common.py:1296-1310 | an allocated slot has exactly one claim, lies in that job's placement and goes to a job with an owner, the anchor's user |
| `Legacy.ReorderingIsHarmless` | src/sgpu/common.py:1199-1311 | the order of the lines does not matter |
| `Legacy.AppendingOnlyDrops` | src/sgpu/common.py:1199-1294 | appended lines never add or change an owner, uid, detail or log entry of an id the original lines claimed; they can only drop it |
| `Legacy.SlotAfterAppending` | src/sgpu/common.py:1199-1310 | after appending, a slot is allocated exactly if one claim to it is left: an original line keeps its claims only if it shares no id with an appended one |
| `Legacy.NewlyAllocatedIff` | src/sgpu/common.py:1296-1310 | exactly which slots are newly allocated |
| `Legacy.ForeignLinesFreeNothing` | src/sgpu/common.py:1199-1310 | if no appended line claims an original id, a slot held by an original job was that job's before |
| `Legacy.ContestedCardIsHandedOver` | src/sgpu/common.py:1304-1310 | two concrete lines and rosters: repeating one line hands the contested card to the other |
| `LegacyLines.BelievedIff` | src/sgpu/common.py:1228-1286 | a line is accepted, with an anchor, exactly if no other line names one of its ids, the rosters agree on that anchor and no other for its ids, and its own clean fields say the same; it is ignored exactly if no roster knows any of its ids |
| `LegacyLines.KnownIff` | src/sgpu/common.py:1181-1311 | the parser knows a job exactly if such a line claims it, and then by that anchor's user and that line's detail text and log paths |
| `LegacyLines.RejectedIff` | src/sgpu/common.py:1228-1310 | it rejects a job exactly if a line that claims it concerns a roster and is not believed, or claims cards of a running job badly or together with another claim |
| `LegacyClaims.GpuIndicesIff` | src/sgpu/common.py:1124-1141 | the index groups of a segment are accepted exactly if all are recognised and well formed and name at most 1024 small numbers |
| `LegacyClaims.GpuIndicesCount` | src/sgpu/common.py:1124-1141 | every number then occurs as often as the groups name it |
| `LegacyClaims.GpuClaimsAre` | src/sgpu/common.py:1144-1170 | a line's segments are accepted exactly if they are usable, disjoint and cover the placement; a card is then claimed once for every time a segment on its node names it |
| `LegacyClaims.AllocatedByText` | src/sgpu/common.py:1296-1310 | a card is allocated exactly if the texts of all accepted lines of active jobs claim it once in all, and then to that line's job |
| `LegacyClaims.SoleClaimIsGranted` | src/sgpu/common.py:1296-1310 | a line that is the only one to claim a card gets it |
| `GpuBinding.ReconcileGpuAlloc` | src/sgpu/common.py:1868-1918 | the three loops over `remaining` and `out` compute the phases' specification |
| `GpuBinding.BindingIsSound` | src/sgpu/common.py:1868-1918 | bound jobs form a sub-multiset of the allocations; each bound card has the job in its cgroups, its owner among its users, or no users; an allocation stays unplaced only if no unbound process-free card is left |
| `GpuBinding.AgreementGivesHint` | src/sgpu/common.py:1885-1918 | if all process evidence agrees with the hint, the binding is the hint |
| `GpuEvidence.CgroupsComeFirst` | src/sgpu/common.py:1889-1895 | if a card is unbound or bound to a job its cgroups do not name, every allocated job they do name has all its copies on cards whose cgroups name it |
| `GpuEvidence.OwnersComeNext` | src/sgpu/common.py:1896-1906 | if a card with processes is unbound, every allocated job whose owner runs one has all its copies on cards that name it or run its owner |
| `GpuEvidence.HintsAreFollowed` | src/sgpu/common.py:1907-1917 | a process-free card that was bound against the hint: every process-free card that the hint gives to that job is bound |
| `DetailText.SplitCutJoin` | src/sgpu/common.py:976-978 | splitting the capped text gives back the printed lines, up to the cut |
| `DetailText.LookupAnswers` | src/sgpu/common.py:1392-1398 | looking a name up in a capped text gives a prefix of that field's value, all of it when its line fits |
| `Detail.SanitiseOneLine` | src/sgpu/common.py:860-875 | a sanitised value is one line of at most the limit, whatever went in |
| `Detail.ValueOneLine` | src/sgpu/common.py:913-975 | no value of a record breaks a line |
| `Detail.TextsDiffer` | src/sgpu/common.py:919-975 | no two published keys have the same text |
| `DetailValues.SanitiseKeepsVisible` | src/sgpu/common.py:873-875 | sanitising keeps the visible characters of a text in order, all of them if the result fits |
| `DetailValues.SanitiseCleans` | src/sgpu/common.py:873-875 | and then leaves single spaces between words and no other white space |
| `DetailValues.SanitiseSparesClean` | src/sgpu/common.py:873-875 | a text that is so already stays as it is |
| `DetailValues.DurationReadsBack` | src/sgpu/common.py:899-910 | a printed duration reads back as its minutes |
| `DetailValues.NumbersAre` | src/sgpu/common.py:879-886 | a number, plain or wrapped, is printed so that it reads back, `UNLIMITED` when it is infinite and nothing when it is not set |
| `DetailValues.PartsAre` | src/sgpu/common.py:866-869 | a list prints the texts of its items in order, without the empty ones |
| `DetailValues.ArrayReadsBack` | src/sgpu/common.py:920-929 | an array task is printed as its array's id and its own, a job outside an array with neither |
| `DetailValues.OwnerIs` | src/sgpu/common.py:916-918 | the owner is a clean user name followed by the user id in brackets |
| `DetailValues.FlagsAndTimes` | src/sgpu/common.py:860-903 | flags are printed in words, and time stamps that are set by the local clock |
| `DetailValues.JobIdReadsBack` | src/sgpu/common.py:913-978 | looking the job id up in the detail of a job gives that job's number |
| `Detail.EveryKeyIsListed` | src/sgpu/common.py:919-975 | every published key is printed |
| `Detail.LookupGivesOwnValue` | src/sgpu/common.py:913-978 | for every record and published key the lookup returns a prefix of that field's own value, and the whole value when its line fits under the cap |
| `Detail.NoForgedField` | src/sgpu/common.py:1392-1398 | a name that is not a published key finds nothing, whatever a submitter wrote |
| `Polling.Collector.PollNodeBg` | src/sgpu/collector.py:1250-1256 | a poll starts unless one is in flight for the node or the cap is reached |
| `Polling.Collector.Scan` | src/sgpu/collector.py:1419-1448 | one scan starts the specified polls and leaves the cursor past the last of them |
| `Polling.Collector.Serve` | src/sgpu/collector.py:1250-1448 | over any sequence of scans and ended polls the object goes through the run the theorems below speak of, within the cap |
| `Polling.ScanRespectsCap` | src/sgpu/collector.py:1250-1256 | a scan stays within the cap and starts only wanted idle nodes, each once |
| `Polling.CapHolds` | src/sgpu/collector.py:1250-1298 | the cap holds after every run |
| `Polling.ScanProgress` | src/sgpu/collector.py:1419-1448 | in one scan an eligible node is started after at most its distance of others, or comes closer by as many places as nodes were started |
| `Polling.BypassBound` | src/sgpu/collector.py:1419-1448 | a node that stays eligible is overtaken by at most as many polls as its first distance from the cursor |
| `Polling.PolledEventually` | src/sgpu/collector.py:1419-1448 | with a free slot at every scan, more scans than the distance suffice |
| `LivePolling.ScanWithEnds` | src/sgpu/collector.py:1419-1448 | the scan loop with polls that end before any of its turns |
| `LivePolling.NoneEnds` | src/sgpu/collector.py:1419-1448 | when none ends it is the scan taken as one step |
| `LivePolling.StartedIff` | src/sgpu/collector.py:1250-1256 | an eligible node is started exactly if it meets a pool with room |
| `LivePolling.PassedByIff` | src/sgpu/collector.py:1419-1448 | the cursor leaves an eligible node behind unpolled exactly if the pool was full at its turn and a later node was started |
| `LivePolling.NotPassedBy` | src/sgpu/collector.py:1419-1448 | which cannot happen if no poll ends after its turn |
| `LivePolling.LiveProgress` | src/sgpu/collector.py:1419-1448 | otherwise it is started after at most its distance of others, or comes closer by at least as many places as nodes were started |
| `LivePolling.LiveBypassBound` | src/sgpu/collector.py:1419-1448 | over a run it is overtaken by at most its first distance plus one round for each scan that passes it by |
| `LivePolling.LivePolledEventually` | src/sgpu/collector.py:1419-1448 | with a free slot at the start of every scan, more scans than that bound suffice |
| `LivePolling.PassedByForEver` | src/sgpu/collector.py:1288 | a node that is eligible in every scan, passed by in each, and never polled |
| `Sacct.SplitPartitions` | src/sgpu/collector.py:954-965 | when no instant of the job lies beyond its day's 86400th second, the segments partition the job's interval and each begins in the day it is keyed to |
| `Sacct.TerminationCondition` | src/sgpu/collector.py:956-965 | the loop ends if and only if no instant of the interval lies beyond the 86400th second of its day |
| `Sacct.ExtraHourNeverEnds` | src/sgpu/collector.py:956-965 | a job that runs into a 25-hour day's extra hour, where the loop does not end |
| `Sacct.OwnDaysIff` | src/sgpu/collector.py:956-965 | every segment lies in the local day it is keyed to if and only if no local day the job runs through is over before its 86400th second |
| `Sacct.ExactIff` | src/sgpu/collector.py:956-965 | each day's time in the segments is the job's overlap with that local day under exactly that condition |
| `Sacct.JobBucketsIff` | src/sgpu/collector.py:954-965 | and so are the job's buckets: GPUs times that overlap |
| `Sacct.BucketsAreLocal` | src/sgpu/collector.py:941-965 | over all jobs, the buckets are GPUs times the overlaps with the local day when no job runs through a day that is over early |
| `Sacct.CountedIff` | src/sgpu/collector.py:944-953 | a row counts exactly if it is a named user's GPU job that ran, from its start to its end, or to now while it has none |
| `Sacct.ShortDaySpills` | src/sgpu/collector.py:956-965 | a job over a 23-hour day, which is credited with 24 hours |
| `Sacct.WholeJobIsKept` | src/sgpu/collector.py:954-965 | a job with no day cut off is kept for its whole run time |
| `Sacct.SplitJob` | src/sgpu/collector.py:954-965 | one job's loop posts, per day and user, its GPUs times the time in that day's segments on or after the cutoff, and adds exactly that to the grand total |
| `Sacct.SacctBackfill` | src/sgpu/collector.py:941-965 | over all jobs every bucket and the grand total are GPUs times the time in segments keyed on or after the cutoff |
| `Usage.NodesCredit` | src/sgpu/collector.py:873-896 | a cycle adds to each figure of each user the elapsed time, once per card that counts towards it |
| `Usage.Collector.CreditOne` | src/sgpu/collector.py:875-896 | one card's credit |
| `Usage.Collector.AccumulateUsage` | src/sgpu/collector.py:859-904 | one sampling cycle: nothing for a first, repeated or late cycle, else the credits, then pruning |
| `Usage.DropBefore` | src/sgpu/collector.py:897-903 | exactly the days before the cutoff go |
| `Usage.Collector.SacctBackfill` | src/sgpu/collector.py:966-970 | the scheduler's numbers replace the previous ones and are never negative |
| `Usage.RunFigures` | src/sgpu/collector.py:859-904 | after any run each figure of each user-day still kept is the sum over the cycles of the credited time, once per card that counts towards it |
| `Usage.RunTime` | src/sgpu/collector.py:859-904 | and each day's sampled time is the sum of the credited times of its cycles |
| `Usage.RunIsSound` | src/sgpu/collector.py:859-970 | after any run of cycles, pruning and backfills each user-day has 0 <= busy <= observed <= alloc and waste <= observed, and each day's fresh and stale GPU-seconds are the totals of observed and of alloc - observed |
| `Usage.MergeUsageWindow` | src/sgpu/usage.py:146-180 | per user and per day the sums of the larger allocation and of the sampled figures over the days kept, with older entries' missing observed time taken as their allocation |
| `Usage.KeptDaysAre` | src/sgpu/usage.py:146-180 | the days merged are those in the window that either source knows |
| `Usage.MergedRead` | src/sgpu/usage.py:146-180 | one user-day of it: the larger of the file's and the scheduler's allocation, and the rest from the file |
| `Usage.EveryWindowIsSound` | src/sgpu/usage.py:146-180 | for every run and window each user's row is in order, and the per-user and per-day totals of alloc and of busy agree |
| `Usage.BusyPlusWaste` | src/sgpu/collector.py:873-896 | over any run, busy plus waste minus observed time is the time of cards that were both minus that of fresh cards that were neither, so they fit exactly when that is not positive |
| `Usage.BusyAndWastedIff` | src/sgpu/collector.py:340-353 | a fresh card is both exactly if it computes and its idle age has reached the threshold; parked memory never counts on a busy card |
| `Usage.BusyAndWasteOverlap` | src/sgpu/collector.py:885-896 | runs in which busy and waste together exceed the observed time |
| `WasteTimers.Tracker.TrackWaste` | src/sgpu/collector.py:320-353 | one fresh observation: the timers go on, begin or end, and the ages reported are theirs |
| `WasteTimers.Tracker.ShowWaste` | src/sgpu/collector.py:1496-1503 | one stale row: ages are shown and no timer changes |
| `WasteTimers.TimersAreRuns` | src/sgpu/collector.py:320-353 | after any history each timer is the maximal trailing run of fresh observations with the same job or owner |
| `WasteTimers.FreshReport` | src/sgpu/collector.py:320-353 | a fresh age is now minus the start of that run, and 0 when the condition does not hold |
| `WasteTimers.StaleReport` | src/sgpu/collector.py:1496-1503 | a stale row never starts, extends or resets a run |
| `WasteTimers.ParkedIff` | src/sgpu/collector.py:320-353 | a card is parked on exactly if it is at most 5 percent busy and at least three tenths of its memory is in use, by numbers that could be read, and then by its job or else its users; it idles exactly if it has a job and no users |
| `WasteTimers.LabelNamesUsers` | src/sgpu/collector.py:344 | the users can be read off the owner's label again |
| `WasteTimers.TruncateIs` | src/sgpu/collector.py:320-353 | ages are cut off to whole seconds towards 0 |
| `CpuShares.SharesConserve` | src/sgpu/common.py:1861-1864 | the shares of a job add up to its CPUs and differ by at most one |
| `CpuShares.AssignNodeJobs` | src/sgpu/common.py:1849-1865 | each node lists the copies of the jobs placed on it, in order |
| `CpuShares.NodesOfAre` | src/sgpu/common.py:1849-1860 | a job is placed on the nodes its list expands to; a text that expands to none is a node of its own |
| `CpuShares.CopiesConserve` | src/sgpu/common.py:1849-1865 | a job's copies sit on its nodes, add up to it and differ by at most one CPU |
| `CpuShares.NodeLists` | src/sgpu/common.py:1849-1865 | a node lists exactly the shares of the jobs placed on it, and every job is listed on every node it expands to |
| `CpuShares.NodeListsConserve` | src/sgpu/common.py:1849-1865 | over all nodes the lists hold the CPUs of all placed jobs |
| `CpuShares.ComputeThreadUsage` | src/sgpu/quickview.py:202-235 | the three tables hold what the counted rows put on each user and node |
| `CpuShares.DepositsConserve` | src/sgpu/quickview.py:225-233 | nothing is lost or invented over the nodes of the counted rows |
| `CpuShares.RowDepositsAre` | src/sgpu/quickview.py:202-233 | a complete row of a running job with CPUs and hosts puts all its CPUs on its hosts, once each in order, and any other row puts nothing anywhere |
| `CpuShares.CountedCpusAre` | src/sgpu/quickview.py:202-233 | the grand total is the CPUs of those rows |
| `CpuShares.ThreadTotals` | src/sgpu/quickview.py:202-235 | row sums are the users' totals, column sums the nodes', and both grand totals the CPUs of the counted rows |
| `Notifier.SlackNotifier.OkToSend` | src/sgpu/notify.py:670-683 | a slot is granted, and marked, exactly when its mark is the gap old |
| `Notifier.SlackNotifier.ApplyRollbacks` | src/sgpu/notify.py:713-721 | every failed delivery handed back releases its mark unless that is newer |
| `Notifier.SlackNotifier.CheckNode` | src/sgpu/notify.py:345-376 | one node's health |
| `Notifier.SlackNotifier.CheckTelemetry` | src/sgpu/notify.py:379-402 | one node's telemetry: lost only on a GPU node that the scheduler says is up |
| `Notifier.SlackNotifier.Process` | src/sgpu/notify.py:334-402 | releases first, then every node's health, then every node's telemetry, as far as those alerts are on |
| `Notifier.SlackNotifier.Save` | src/sgpu/notify.py:825-831 | exactly the marks older than twice the longer gap go |
| `Notifier.SlackNotifier.Serve` | src/sgpu/notify.py:334-831 | over any sequence of snapshots, failed deliveries, other alerts and saves the object goes through the run the theorems below speak of, so its state agrees with the record |
| `Notifier.RunIsOk` | src/sgpu/notify.py:339-402 | after every run the state agrees with the record of what happened, and every message and grant in it was justified by what came before |
| `Notifier.ReportedWhenDue` | src/sgpu/notify.py:353-396 | a bad observation, of a node's health or of its telemetry, posts an alarm exactly when none is open, the condition has lasted for that alert's grace period and the slot is free |
| `Notifier.DownReportedWhenDue` | src/sgpu/notify.py:353-366 | for a node that is down: its grace, its key and its debounce time |
| `Notifier.BlindReportedWhenDue` | src/sgpu/notify.py:385-396 | for a node whose telemetry is lost: likewise, with the nag time |
| `Notifier.CycleSees` | src/sgpu/notify.py:345-402 | a snapshot observes every node's health and then every node's telemetry, in order and once each, telemetry as lost only on a GPU node that is up |
| `Notifier.MessagesAlternate` | src/sgpu/notify.py:349-402 | per node and alert the first message is an alarm, and alarms and recovered messages alternate |
| `Notifier.AlarmAfterGrace` | src/sgpu/notify.py:353-394 | an alarm follows a bad observation at least the alert's grace period old with no good one since |
| `Notifier.RecoveredAfterGood` | src/sgpu/notify.py:371-402 | a recovered message follows a good observation with no bad one since, and gives the time since the outage it closes began |
| `Notifier.AlarmFiresOncePerOutage` | src/sgpu/notify.py:355-397 | between two alarms of one alert a node was seen good, failed deliveries or not |
| `Notifier.GrantsKeepTheirDistance` | src/sgpu/notify.py:670-683 | two grants of a key are the gap apart unless a failed delivery enqueued at or after the first released it in between |
| `Notifier.ReleaseSparesNewerMarks` | src/sgpu/notify.py:713-721 | failed deliveries enqueued before a mark was set leave it in place |
| `Notifier.PruningIsInvisible` | src/sgpu/notify.py:825-831 | a run with all pruning left out gives the same answers, messages and outages |
| `Outcomes.JobWatcher.Process` | src/sgpu/notify.py:405-442 | one snapshot: the events enqueued, and the jobs, order and log sources kept |
| `Outcomes.HandOut` | src/sgpu/notify.py:415-434 | the batch loop: the events accepted and the jobs deferred |
| `Outcomes.BatchesSplit` | src/sgpu/notify.py:421-434 | each job that went is either handed over or deferred, once |
| `Outcomes.GoneAt` | src/sgpu/notify.py:415 | the jobs that went keep the order in which they were tracked |
| `Outcomes.DeferredIff` | src/sgpu/notify.py:421-434 | a job that went is deferred exactly if its batch, 32 by 32 in order, finds the queue full |
| `Outcomes.NothingIsLost` | src/sgpu/notify.py:413-437 | after a clean snapshot each tracked job is listed now, handed over, or still tracked as it was |
| `Outcomes.StepTracks` | src/sgpu/notify.py:409-442 | what a snapshot tracks: the followed users' jobs on the list, as last listed, and besides them only the deferred ones; a failed snapshot, or one when nobody is followed, changes nothing |
| `Outcomes.StepSources` | src/sgpu/notify.py:409-442 | the log sources known afterwards: those of deferred jobs as they were, any other from the snapshot, none after a failed one |
| `Outcomes.StepOrder` | src/sgpu/notify.py:413-441 | jobs are tracked in the order in which the snapshot first lists them, the deferred ones after them |
| `Outcomes.CurrentIs` | src/sgpu/notify.py:411-414 | a job is current exactly if a row of a followed user lists it, where `*` follows everybody |
| `Outcomes.CurrentIsLast` | src/sgpu/notify.py:413-414 | the last such row of a job counts |
| `Outcomes.EventsCarryTheAccepted` | src/sgpu/notify.py:421-431 | the events hold 1 to 32 jobs each and together exactly the accepted jobs as last recorded |
| `Outcomes.StatesOfFailWatched` | src/sgpu/notify.py:416-425 | final states are asked for exactly the jobs whose users' failures are watched |
| `Outcomes.EventsAreEvents` | src/sgpu/notify.py:421-431 | every event has its jobs as tracked, the ids of those whose users' failures are reported, and the log sources known for them |
| `Outcomes.OutcomesBalance` | src/sgpu/notify.py:409-442 | over every run, entries into tracking minus outcomes enqueued is 0 or 1, and 1 exactly while the job is tracked; an outcome carries the job as last listed |
| `Outcomes.FailedSnapshotsAreIgnored` | src/sgpu/notify.py:409-442 | a failed snapshot changes neither what is tracked nor the record |
| `CgroupScan.KindsAre` | src/sgpu/node_telemetry.py:225-228 | which directory names count: job, SLUID and, near the top, user directories |
| `CgroupScan.ReadAt` | src/sgpu/node_telemetry.py:17-29 | a file's content or nothing, and no descriptor left open |
| `CgroupScan.JobOfPids` | src/sgpu/node_telemetry.py:137-150 | the first root step daemon that names a job, unless reading raises before it; no descriptor left open |
| `CgroupScan.JobOfStep` | src/sgpu/node_telemetry.py:130-156 | the same for one step directory, whichever of its opens fails |
| `CgroupScan.SluidJobId` | src/sgpu/node_telemetry.py:117-157 | the job id of a SLUID directory from at most 32 steps; no descriptor left open |
| `CgroupScan.SluidJobIff` | src/sgpu/node_telemetry.py:117-157 | a SLUID directory's job is the one that the first of at most 32 steps among its first 4096 entries to name one names; a step names the job of the first root daemon among its first 32 processes |
| `CgroupScan.VisitEntry` | src/sgpu/node_telemetry.py:217-245 | one directory entry: only the descriptors of queued directories stay open |
| `CgroupScan.ScanDir` | src/sgpu/node_telemetry.py:216-249 | one directory's loop, with every way of abandoning it |
| `CgroupScan.ScanScope` | src/sgpu/node_telemetry.py:206-253 | a scope's queue: each descriptor is closed once, also when the scan is cut short |
| `CgroupScan.ScanParent` | src/sgpu/node_telemetry.py:92-115 | one parent's scopes: its descriptor is closed when they are done, cut short or raise |
| `CgroupScan.NodeSampler.Jobs` | src/sgpu/node_telemetry.py:189-258 | the whole scan: its result, what is remembered of CPU counters, and the same open descriptors as before on every way out |
| `CgroupRates.RateOfOneScan` | src/sgpu/node_telemetry.py:159-172 | a directory reported once has a rate exactly if an earlier reading can be compared, and times the elapsed time it makes up what the counter gained |
| `CgroupRates.RememberedAfterScan` | src/sgpu/node_telemetry.py:167-172 | its reading is remembered if it is usable, and otherwise none is |
| `CgroupRates.ForgottenWhenGone` | src/sgpu/node_telemetry.py:257 | a directory that is not found is forgotten |
| `CgroupRates.ForgottenWithTheTree` | src/sgpu/node_telemetry.py:189-204 | everything is forgotten when the tree cannot be opened or its controllers read |
| `CgroupRates.RatesAddUp` | src/sgpu/node_telemetry.py:159-257 | over consecutive scans with a counter that never falls, every report but the first has a rate, and the rates times the elapsed times add up to the last reading minus the first |
| `CgroupScan.ReportedIff` | src/sgpu/node_telemetry.py:233-244 | a job id is reported if and only if the first directory of it that could be sampled is the last resolved to it, with that directory's figures, and never more jobs than allowed |
| `CgroupScan.ScanAgainstTree` | src/sgpu/node_telemetry.py:205-255 | no directory is resolved that the tree does not have, or more often; when nothing was skipped all are, and a job id is reported if and only if exactly one directory of the tree resolves to it |

## Left out

- Real I/O: SSH, subprocesses, NFS, /proc and /sys, Slack, systemd. What they return is an input.
- The user interface, tables, Prometheus text, the installer, dataclass codecs and threshold helpers: only easy members.
- File permissions, symlink defences and privilege dropping.
- Log mirror: status strings and the back-off cadence (which jobs are due is an input), unlinks that fail, the size of the worker pool; ids that are not valid are taken to be filtered out before.
- `Overlap.FollowMirror`: the check that the job is still in the queue, a follower that starts before the file exists, and decoding of the bytes.
- `Nodelist.StrictRangeValues`: Python's limit on the length of integer text.
- `Nodelist.ExpandRangeSpec`: digits other than ASCII; a bound written in them is kept as text here, where the code converts it.
- `Nodelist.ExpandNodelist`: digits other than ASCII, for the same reason.
- Legacy parser: the tokenising of lines into fields and the assembly of the detail text; lines start as claimed ids and parsed fields. Path normalisation is part of those fields.
- `Detail.LookupGivesOwnValue`: JSON syntax; records start parsed, and the text Python prints for a float is an input.
- `Polling.BypassBound`: a scan is one step here, and the roster is fixed; `LivePolling.LiveBypassBound` lets polls end during scans. The worker thread that runs a poll is not modelled.
- `LivePolling.LiveBypassBound`: the roster is fixed.
- `Sacct.SacctBackfill`: parsing of the accounting rows, and the retry policy around failed queries. It requires that no row's own interval holds an instant beyond its day's 86400th second, since then the loop does not end.
- `Usage.RunIsSound`: history reloaded after a restart; the coverage table is not reloaded by the code, so the equations then hold for later days only.
- `CpuShares.ComputeThreadUsage`: splitting of queue lines and host-list expansion of the quick view; rows start with their hosts.
- `Notifier.RunIsOk`: restarts and state files, the wording of messages, messages dropped because the delivery queue is full (posting is what is counted), and the other alerts, which appear as requests for their own keys.
- `Outcomes.JobWatcher.Process`: what the outcome worker does with an event, and the queue's size; whether a batch finds room is an input.
- `CgroupScan.ScanParent`: choosing the scope directories of a parent by name, at most 64 of the first 4096 entries in name order; they are an input. Exceptions other than operating-system errors are not modelled.
- `CgroupScan.NodeSampler.Jobs`: the memory figures of a job are one value that reading it gives.
