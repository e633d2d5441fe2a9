/**
Splitting the CPUs of multi-node jobs over their nodes: the per-node job map of
the collector and the user-by-node thread matrix of the quick view.
*/
module CpuShares {
  import opened Common
  import Nodelist
  import opened Sums

  // ---------------------------------------------------------------------------
  // One job
  // ---------------------------------------------------------------------------

  function SumInts(s: seq<int>): int {
    if s == [] then 0 else SumInts(s[..|s| - 1]) + s[|s| - 1]
  }

  /** `divmod(total, n)`, the remainder spread over the first shares. */
  function Share(total: int, n: nat, i: nat): int
    requires i < n
  {
    total / n + if i < total % n then 1 else 0
  }

  function Shares(total: int, n: nat): (shares: seq<int>)
    requires n > 0
    ensures |shares| == n
  {
    seq(n, i requires 0 <= i < n => Share(total, n, i))
  }

  lemma {:induction false} SharePrefix(total: int, n: nat, k: nat)
    requires 0 < n && k <= n
    ensures SumInts(Shares(total, n)[..k]) == total / n * k + if k < total % n then k else total % n
    decreases k
  {
    if k > 0 {
      SharePrefix(total, n, k - 1);
      assert Shares(total, n)[..k][..k - 1] == Shares(total, n)[..k - 1];
      assert total / n * k == total / n * (k - 1) + total / n;
    }
  }

  /** The shares of a job add up to its CPUs and differ by at most one. */
  lemma SharesConserve(total: int, n: nat)
    requires n > 0
    ensures SumInts(Shares(total, n)) == total
    ensures forall i, j :: 0 <= i < n && 0 <= j < n ==> Shares(total, n)[i] - Shares(total, n)[j] <= 1
    ensures total >= 0 ==> forall i :: 0 <= i < n ==> Shares(total, n)[i] >= 0
  {
    SharePrefix(total, n, n);
    assert Shares(total, n)[..n] == Shares(total, n);
  }

  // ---------------------------------------------------------------------------
  // Deposits and their sums
  // ---------------------------------------------------------------------------

  /** `cpus` CPUs of a job of `user` on `node`. */
  datatype Deposit = Deposit(user: string, node: string, cpus: int)

  function OfUser(ds: seq<Deposit>, u: string): int {
    if ds == [] then 0
    else OfUser(ds[..|ds| - 1], u) + if ds[|ds| - 1].user == u then ds[|ds| - 1].cpus else 0
  }

  function OnNode(ds: seq<Deposit>, n: string): int {
    if ds == [] then 0
    else OnNode(ds[..|ds| - 1], n) + if ds[|ds| - 1].node == n then ds[|ds| - 1].cpus else 0
  }

  function OfUserOnNode(ds: seq<Deposit>, u: string, n: string): int {
    if ds == [] then 0
    else
      var d := ds[|ds| - 1];
      OfUserOnNode(ds[..|ds| - 1], u, n) + if d.user == u && d.node == n then d.cpus else 0
  }

  function All(ds: seq<Deposit>): int {
    if ds == [] then 0 else All(ds[..|ds| - 1]) + ds[|ds| - 1].cpus
  }

  lemma {:induction false} AllConcat(a: seq<Deposit>, b: seq<Deposit>)
    ensures All(a + b) == All(a) + All(b)
    decreases |b|
  {
    if b == [] {
      assert a + b == a;
    } else {
      assert (a + b)[..|a + b| - 1] == a + b[..|b| - 1];
      AllConcat(a, b[..|b| - 1]);
    }
  }

  /** A row of the user-by-node table, summed over nodes that cover it. */
  lemma {:induction false} RowSum(ds: seq<Deposit>, u: string, nodes: set<string>)
    requires forall d :: d in ds && d.user == u ==> d.node in nodes
    ensures Sum(nodes, n => OfUserOnNode(ds, u, n) as real) == OfUser(ds, u) as real
    decreases |ds|
  {
    if ds == [] {
      SumZero(nodes, n => OfUserOnNode(ds, u, n) as real);
    } else {
      var d, rest := ds[|ds| - 1], ds[..|ds| - 1];
      assert d in ds && forall x :: x in rest ==> x in ds;
      RowSum(rest, u, nodes);
      if d.user == u {
        SumBump(nodes, n => OfUserOnNode(rest, u, n) as real, n => OfUserOnNode(ds, u, n) as real, d.node, d.cpus as real);
      } else {
        SumSame(nodes, n => OfUserOnNode(rest, u, n) as real, n => OfUserOnNode(ds, u, n) as real);
      }
    }
  }

  lemma {:induction false} ColumnSum(ds: seq<Deposit>, n: string, users: set<string>)
    requires forall d :: d in ds && d.node == n ==> d.user in users
    ensures Sum(users, u => OfUserOnNode(ds, u, n) as real) == OnNode(ds, n) as real
    decreases |ds|
  {
    if ds == [] {
      SumZero(users, u => OfUserOnNode(ds, u, n) as real);
    } else {
      var d, rest := ds[|ds| - 1], ds[..|ds| - 1];
      assert d in ds && forall x :: x in rest ==> x in ds;
      ColumnSum(rest, n, users);
      if d.node == n {
        SumBump(users, u => OfUserOnNode(rest, u, n) as real, u => OfUserOnNode(ds, u, n) as real, d.user, d.cpus as real);
      } else {
        SumSame(users, u => OfUserOnNode(rest, u, n) as real, u => OfUserOnNode(ds, u, n) as real);
      }
    }
  }

  lemma {:induction false} UserGrandTotal(ds: seq<Deposit>, users: set<string>)
    requires forall d :: d in ds ==> d.user in users
    ensures Sum(users, u => OfUser(ds, u) as real) == All(ds) as real
    decreases |ds|
  {
    if ds == [] {
      SumZero(users, u => OfUser(ds, u) as real);
    } else {
      var d, rest := ds[|ds| - 1], ds[..|ds| - 1];
      assert d in ds && forall x :: x in rest ==> x in ds;
      UserGrandTotal(rest, users);
      SumBump(users, u => OfUser(rest, u) as real, u => OfUser(ds, u) as real, d.user, d.cpus as real);
    }
  }

  lemma {:induction false} NodeGrandTotal(ds: seq<Deposit>, nodes: set<string>)
    requires forall d :: d in ds ==> d.node in nodes
    ensures Sum(nodes, n => OnNode(ds, n) as real) == All(ds) as real
    decreases |ds|
  {
    if ds == [] {
      SumZero(nodes, n => OnNode(ds, n) as real);
    } else {
      var d, rest := ds[|ds| - 1], ds[..|ds| - 1];
      assert d in ds && forall x :: x in rest ==> x in ds;
      NodeGrandTotal(rest, nodes);
      SumBump(nodes, n => OnNode(rest, n) as real, n => OnNode(ds, n) as real, d.node, d.cpus as real);
    }
  }

  // ---------------------------------------------------------------------------
  // The thread matrix
  // ---------------------------------------------------------------------------

  /** A queue row: enough fields, running, its user, CPUs when the field is a
      number, node list, and the hosts the list expands to. */
  datatype Row = Row(complete: bool, running: bool, user: string, cpus: Option<nat>, nodelist: string, hosts: seq<string>) {
    predicate Counted() {
      && complete && running && cpus.Some? && cpus.value != 0
      && nodelist != "(null)" && nodelist != "N/A" && nodelist != "" && hosts != []
    }
  }

  function RowDeposits(r: Row): seq<Deposit> {
    if !r.Counted() then []
    else seq(|r.hosts|, i requires 0 <= i < |r.hosts| => Deposit(r.user, r.hosts[i], Share(r.cpus.value, |r.hosts|, i)))
  }

  function Deposits(rows: seq<Row>): seq<Deposit> {
    if rows == [] then [] else Deposits(rows[..|rows| - 1]) + RowDeposits(rows[|rows| - 1])
  }

  function CountedCpus(rows: seq<Row>): nat {
    if rows == [] then 0
    else CountedCpus(rows[..|rows| - 1]) + if rows[|rows| - 1].Counted() then rows[|rows| - 1].cpus.value else 0
  }

  function At(m: map<string, int>, k: string): int {
    if k in m then m[k] else 0
  }

  function Line(matrix: map<string, map<string, int>>, u: string): map<string, int> {
    if u in matrix then matrix[u] else map[]
  }

  ghost predicate Tables(ds: seq<Deposit>, matrix: map<string, map<string, int>>, nodeUsed: map<string, int>, userTotal: map<string, int>) {
    && (forall u :: At(userTotal, u) == OfUser(ds, u))
    && (forall n :: At(nodeUsed, n) == OnNode(ds, n))
    && (forall u, n :: At(Line(matrix, u), n) == OfUserOnNode(ds, u, n))
    && (forall d :: d in ds ==> d.user in userTotal && d.node in nodeUsed && d.user in matrix && d.node in matrix[d.user])
    && userTotal.Keys == matrix.Keys
  }

  function Bump(m: map<string, int>, k: string, c: int): map<string, int> {
    m[k := At(m, k) + c]
  }

  lemma DepositInLine(ds: seq<Deposit>, d: Deposit, matrix: map<string, map<string, int>>, u: string, n: string)
    requires At(Line(matrix, u), n) == OfUserOnNode(ds, u, n)
    ensures var matrix' := matrix[d.user := Bump(Line(matrix, d.user), d.node, d.cpus)];
      At(Line(matrix', u), n) == OfUserOnNode(ds + [d], u, n)
  {
    assert (ds + [d])[..|ds|] == ds;
  }

  lemma DepositInTotals(ds: seq<Deposit>, d: Deposit, nodeUsed: map<string, int>, userTotal: map<string, int>)
    requires (forall u :: At(userTotal, u) == OfUser(ds, u)) && (forall n :: At(nodeUsed, n) == OnNode(ds, n))
    ensures forall u :: At(Bump(userTotal, d.user, d.cpus), u) == OfUser(ds + [d], u)
    ensures forall n :: At(Bump(nodeUsed, d.node, d.cpus), n) == OnNode(ds + [d], n)
  {
    assert (ds + [d])[..|ds|] == ds;
  }

  lemma DepositKeepsTables(ds: seq<Deposit>, d: Deposit, matrix: map<string, map<string, int>>, nodeUsed: map<string, int>, userTotal: map<string, int>)
    requires Tables(ds, matrix, nodeUsed, userTotal)
    ensures Tables(ds + [d], matrix[d.user := Bump(Line(matrix, d.user), d.node, d.cpus)],
                   Bump(nodeUsed, d.node, d.cpus), Bump(userTotal, d.user, d.cpus))
  {
    hide OfUserOnNode, OfUser, OnNode;
    var more := ds + [d];
    var matrix' := matrix[d.user := Bump(Line(matrix, d.user), d.node, d.cpus)];
    var (nodeUsed', userTotal') := (Bump(nodeUsed, d.node, d.cpus), Bump(userTotal, d.user, d.cpus));
    assert userTotal'.Keys == userTotal.Keys + {d.user} && matrix'.Keys == matrix.Keys + {d.user};
    forall u, n ensures At(Line(matrix', u), n) == OfUserOnNode(more, u, n) {
      assert At(Line(matrix, u), n) == OfUserOnNode(ds, u, n);
      DepositInLine(ds, d, matrix, u, n);
    }
    forall x | x in more
      ensures x.user in userTotal' && x.node in nodeUsed' && x.user in matrix' && x.node in matrix'[x.user]
    {
      assert x == d || x in ds;
    }
    DepositInTotals(ds, d, nodeUsed, userTotal);
    assert userTotal'.Keys == matrix'.Keys;
    assert Tables(more, matrix', nodeUsed', userTotal');
  }

  /** The node loop for one counted row. */
  method DepositRow(r: Row, ghost before: seq<Deposit>,
                    matrix: map<string, map<string, int>>, nodeUsed: map<string, int>, userTotal: map<string, int>)
    returns (matrix': map<string, map<string, int>>, nodeUsed': map<string, int>, userTotal': map<string, int>)
    requires r.Counted() && Tables(before, matrix, nodeUsed, userTotal)
    ensures Tables(before + RowDeposits(r), matrix', nodeUsed', userTotal')
  {
    hide Tables, RowDeposits;
    matrix', nodeUsed', userTotal' := matrix, nodeUsed, userTotal;
    ghost var mine := RowDeposits(r);
    var n := |r.hosts|;
    DepositAt(r, 0);
    assert before + mine[..0] == before;
    for i := 0 to n
      invariant |mine| == n
      invariant Tables(before + mine[..i], matrix', nodeUsed', userTotal')
    {
      var cpus := r.cpus.value / n + if i < r.cpus.value % n then 1 else 0;
      DepositAt(r, i);
      assert before + mine[..i + 1] == before + mine[..i] + [mine[i]];
      DepositKeepsTables(before + mine[..i], mine[i], matrix', nodeUsed', userTotal');
      matrix' := matrix'[r.user := Bump(Line(matrix', r.user), r.hosts[i], cpus)];
      nodeUsed' := Bump(nodeUsed', r.hosts[i], cpus);
      userTotal' := Bump(userTotal', r.user, cpus);
    }
    assert mine[..n] == mine;
  }

  method ComputeThreadUsage(rows: seq<Row>)
    returns (matrix: map<string, map<string, int>>, nodeUsed: map<string, int>, userTotal: map<string, int>)
    ensures Tables(Deposits(rows), matrix, nodeUsed, userTotal)
  {
    matrix, nodeUsed, userTotal := map[], map[], map[];
    assert Tables(Deposits(rows[..0]), matrix, nodeUsed, userTotal);
    hide Tables;
    for k := 0 to |rows|
      invariant Tables(Deposits(rows[..k]), matrix, nodeUsed, userTotal)
    {
      var r := rows[k];
      DepositsStep(rows, k);
      if !r.complete || !r.running || r.cpus.None? {
        continue;
      }
      if r.cpus.value == 0 || r.nodelist == "(null)" || r.nodelist == "N/A" || r.nodelist == "" {
        continue;
      }
      if r.hosts == [] {
        continue;
      }
      matrix, nodeUsed, userTotal := DepositRow(r, Deposits(rows[..k]), matrix, nodeUsed, userTotal);
    }
    assert rows[..|rows|] == rows;
  }

  lemma DepositsStep(rows: seq<Row>, k: nat)
    requires k < |rows|
    ensures Deposits(rows[..k + 1]) == Deposits(rows[..k]) + RowDeposits(rows[k])
    ensures !rows[k].Counted() ==> Deposits(rows[..k + 1]) == Deposits(rows[..k])
  {
    assert rows[..k + 1][..k] == rows[..k];
  }

  lemma DepositAt(r: Row, i: nat)
    requires r.Counted() && i < |r.hosts|
    ensures |RowDeposits(r)| == |r.hosts|
    ensures i < |RowDeposits(r)| && RowDeposits(r)[i] == Deposit(r.user, r.hosts[i], r.cpus.value / |r.hosts| + if i < r.cpus.value % |r.hosts| then 1 else 0)
  {
  }

  /** A row that holds CPUs: it is whole, its job runs, and it names CPUs and nodes. */
  ghost predicate HoldsCpus(r: Row) {
    r.running && r.complete && (exists n :: n > 0 && r.cpus == Some(n)) && r.nodelist !in {"", "(null)", "N/A"} && |r.hosts| > 0
  }

  /** What a row adds to the tables: its user's CPUs, all of them, one deposit on
      each host in order; nothing when it holds none. */
  lemma RowDepositsAre(r: Row)
    ensures !HoldsCpus(r) ==> RowDeposits(r) == []
    ensures HoldsCpus(r) ==> |RowDeposits(r)| == |r.hosts| && All(RowDeposits(r)) == r.cpus.value
    ensures HoldsCpus(r) ==> forall i :: 0 <= i < |r.hosts| ==> RowDeposits(r)[i].user == r.user && RowDeposits(r)[i].node == r.hosts[i]
  {
    HoldsIff(r);
    if HoldsCpus(r) {
      var n := |r.hosts|;
      RowDepositsPrefix(r, n);
      SharesConserve(r.cpus.value, n);
      assert RowDeposits(r)[..n] == RowDeposits(r) && Shares(r.cpus.value, n)[..n] == Shares(r.cpus.value, n);
    }
  }

  ghost function CpusHeld(): Row -> nat {
    (r: Row) => if HoldsCpus(r) then r.cpus.value else 0
  }

  lemma {:induction false} CountedCpusAre(rows: seq<Row>)
    ensures CountedCpus(rows) == Total(rows, CpusHeld())
    decreases |rows|
  {
    if rows != [] {
      var k := |rows| - 1;
      CountedCpusAre(rows[..k]);
      TotalSnoc(rows, k, CpusHeld());
      assert rows[..k + 1] == rows;
      HoldsIff(rows[k]);
    }
  }

  lemma HoldsIff(r: Row)
    ensures HoldsCpus(r) <==> r.Counted()
  {
    if r.Counted() {
      assert r.cpus == Some(r.cpus.value) && r.cpus.value > 0;
    }
  }

  lemma {:induction false} RowDepositsPrefix(r: Row, k: nat)
    requires r.Counted() && k <= |r.hosts|
    ensures All(RowDeposits(r)[..k]) == SumInts(Shares(r.cpus.value, |r.hosts|)[..k])
    decreases k
  {
    if k > 0 {
      RowDepositsPrefix(r, k - 1);
      assert RowDeposits(r)[..k][..k - 1] == RowDeposits(r)[..k - 1];
      assert Shares(r.cpus.value, |r.hosts|)[..k][..k - 1] == Shares(r.cpus.value, |r.hosts|)[..k - 1];
    }
  }

  /** Nothing is lost or invented: the deposits are the CPUs of the counted rows. */
  lemma {:induction false} DepositsConserve(rows: seq<Row>)
    ensures All(Deposits(rows)) == CountedCpus(rows)
    decreases |rows|
  {
    if rows != [] {
      var r, rest := rows[|rows| - 1], rows[..|rows| - 1];
      DepositsConserve(rest);
      AllConcat(Deposits(rest), RowDeposits(r));
      if r.Counted() {
        var n := |r.hosts|;
        RowDepositsPrefix(r, n);
        SharesConserve(r.cpus.value, n);
        assert RowDeposits(r)[..n] == RowDeposits(r) && Shares(r.cpus.value, n)[..n] == Shares(r.cpus.value, n);
      }
    }
  }

  function Entry(m: map<string, int>): string -> real {
    (k: string) => At(m, k) as real
  }

  /** Rows add up to the users' totals, columns to the nodes', and both grand
      totals to the CPUs of the counted rows. */
  lemma ThreadTotals(rows: seq<Row>, matrix: map<string, map<string, int>>, nodeUsed: map<string, int>, userTotal: map<string, int>)
    requires Tables(Deposits(rows), matrix, nodeUsed, userTotal)
    ensures forall u :: u in matrix ==> Sum(matrix[u].Keys, Entry(matrix[u])) == userTotal[u] as real
    ensures forall n :: n in nodeUsed ==> Sum(matrix.Keys, (u: string) => At(Line(matrix, u), n) as real) == nodeUsed[n] as real
    ensures Sum(userTotal.Keys, Entry(userTotal)) == CountedCpus(rows) as real
    ensures Sum(nodeUsed.Keys, Entry(nodeUsed)) == CountedCpus(rows) as real
  {
    var ds := Deposits(rows);
    hide Deposits;
    DepositsConserve(rows);
    forall u | u in matrix ensures Sum(matrix[u].Keys, Entry(matrix[u])) == userTotal[u] as real {
      RowSum(ds, u, matrix[u].Keys);
      SumSame(matrix[u].Keys, Entry(matrix[u]), n => OfUserOnNode(ds, u, n) as real);
      assert At(userTotal, u) == OfUser(ds, u);
    }
    forall n | n in nodeUsed
      ensures Sum(matrix.Keys, (u: string) => At(Line(matrix, u), n) as real) == nodeUsed[n] as real
    {
      ColumnSum(ds, n, matrix.Keys);
      SumSame(matrix.Keys, (u: string) => At(Line(matrix, u), n) as real, u => OfUserOnNode(ds, u, n) as real);
      assert At(nodeUsed, n) == OnNode(ds, n);
    }
    UserGrandTotal(ds, userTotal.Keys);
    SumSame(userTotal.Keys, Entry(userTotal), u => OfUser(ds, u) as real);
    NodeGrandTotal(ds, nodeUsed.Keys);
    SumSame(nodeUsed.Keys, Entry(nodeUsed), n => OnNode(ds, n) as real);
  }

  // ---------------------------------------------------------------------------
  // The per-node job map
  // ---------------------------------------------------------------------------

  datatype Job = Job(jobid: string, node: string, cpus: int)

  /** The nodes a job runs on; a list that expands to nothing names itself. */
  function NodesOf(j: Job): seq<string> {
    var nodes := Nodelist.Expand(j.node);
    if nodes != [] then nodes else if j.node != "" then [j.node] else []
  }

  /** The nodes are those its list expands to; a text that expands to none is a
      node of its own unless it is empty. */
  lemma NodesOfAre(j: Job, node: string)
    ensures node in NodesOf(j) <==>
      node in Nodelist.Expand(j.node) || (|Nodelist.Expand(j.node)| == 0 && node == j.node && |node| > 0)
  {
  }

  /** A job's copies for its nodes, in order: whole on one node, in shares on several. */
  function Copies(j: Job): seq<(string, Job)> {
    var nodes := NodesOf(j);
    seq(|nodes|, i requires 0 <= i < |nodes| =>
      (nodes[i], if |nodes| == 1 then j else j.(cpus := Share(j.cpus, |nodes|, i))))
  }

  function AllCopies(jobs: seq<Job>): seq<(string, Job)> {
    if jobs == [] then [] else AllCopies(jobs[..|jobs| - 1]) + Copies(jobs[|jobs| - 1])
  }

  function OnlyAt(cs: seq<(string, Job)>, node: string): seq<Job> {
    if cs == [] then []
    else OnlyAt(cs[..|cs| - 1], node) + if cs[|cs| - 1].0 == node then [cs[|cs| - 1].1] else []
  }

  function JobsAt(m: map<string, seq<Job>>, node: string): seq<Job> {
    if node in m then m[node] else []
  }

  ghost predicate Grouped(cs: seq<(string, Job)>, m: map<string, seq<Job>>) {
    (forall node :: JobsAt(m, node) == OnlyAt(cs, node)) && forall node :: node in m ==> m[node] != []
  }

  lemma GroupOne(cs: seq<(string, Job)>, m: map<string, seq<Job>>, node: string, j: Job)
    requires Grouped(cs, m)
    ensures Grouped(cs + [(node, j)], m[node := JobsAt(m, node) + [j]])
  {
    var more := cs + [(node, j)];
    assert more[..|more| - 1] == cs && more[|more| - 1] == (node, j);
    var m' := m[node := JobsAt(m, node) + [j]];
    forall x ensures JobsAt(m', x) == OnlyAt(more, x) {
      assert OnlyAt(cs, x) + [] == OnlyAt(cs, x);
    }
  }

  method PlacedOn(j: Job) returns (nodes: seq<string>)
    ensures nodes == NodesOf(j)
  {
    hide Nodelist.Expand;
    nodes := Nodelist.ExpandNodelist(j.node);
    if nodes == [] && j.node != "" {
      nodes := [j.node];
    }
  }

  /** One job of the loop. */
  method AssignJob(j: Job, ghost before: seq<(string, Job)>, m: map<string, seq<Job>>) returns (m': map<string, seq<Job>>)
    requires Grouped(before, m)
    ensures Grouped(before + Copies(j), m')
  {
    hide Grouped, Copies, NodesOf;
    var nodes := PlacedOn(j);
    CopiesAre(j);
    m' := m;
    ghost var mine := Copies(j);
    var n := |nodes|;
    assert before + mine[..0] == before;
    for i := 0 to n
      invariant Grouped(before + mine[..i], m')
    {
      var copy := if n <= 1 then j else j.(cpus := j.cpus / n + if i < j.cpus % n then 1 else 0);
      assert mine[i] == (nodes[i], copy);
      assert before + mine[..i + 1] == before + mine[..i] + [mine[i]];
      GroupOne(before + mine[..i], m', nodes[i], copy);
      m' := m'[nodes[i] := JobsAt(m', nodes[i]) + [copy]];
    }
    assert mine[..n] == mine;
  }

  method AssignNodeJobs(jobs: seq<Job>) returns (m: map<string, seq<Job>>)
    ensures Grouped(AllCopies(jobs), m)
  {
    m := map[];
    assert Grouped(AllCopies(jobs[..0]), m);
    hide Grouped, Copies;
    for k := 0 to |jobs|
      invariant Grouped(AllCopies(jobs[..k]), m)
    {
      assert jobs[..k + 1][..k] == jobs[..k];
      m := AssignJob(jobs[k], AllCopies(jobs[..k]), m);
    }
    assert jobs[..|jobs|] == jobs;
  }

  lemma CopiesAre(j: Job)
    ensures var nodes := NodesOf(j);
      && |Copies(j)| == |nodes|
      && forall i :: 0 <= i < |nodes| ==>
        Copies(j)[i] == (nodes[i], if |nodes| <= 1 then j else j.(cpus := j.cpus / |nodes| + if i < j.cpus % |nodes| then 1 else 0))
  {
    hide NodesOf;
  }

  function CopyCpus(cs: seq<(string, Job)>): seq<int> {
    seq(|cs|, i requires 0 <= i < |cs| => cs[i].1.cpus)
  }

  /** A placed job's copies sit on its nodes in order, differ by at most one CPU
      and add up to the job. */
  lemma CopiesConserve(j: Job)
    ensures |Copies(j)| == |NodesOf(j)| && forall i :: 0 <= i < |NodesOf(j)| ==>
      Copies(j)[i].0 == NodesOf(j)[i] && Copies(j)[i].1.jobid == j.jobid
    ensures NodesOf(j) != [] ==> SumInts(CopyCpus(Copies(j))) == j.cpus
    ensures forall a, b :: 0 <= a < |NodesOf(j)| && 0 <= b < |NodesOf(j)| ==> Copies(j)[a].1.cpus - Copies(j)[b].1.cpus <= 1
  {
    hide NodesOf;
    var n := |NodesOf(j)|;
    if n == 1 {
      assert CopyCpus(Copies(j)) == [j.cpus] && [j.cpus][..0] == [];
      assert SumInts([j.cpus]) == j.cpus;
    } else if n > 1 {
      SharesConserve(j.cpus, n);
      assert CopyCpus(Copies(j)) == Shares(j.cpus, n);
    }
  }

  // ---------------------------------------------------------------------------
  // The whole job map
  // ---------------------------------------------------------------------------

  lemma {:induction false} OnlyAtHas(cs: seq<(string, Job)>, node: string, c: Job)
    ensures c in OnlyAt(cs, node) <==> (node, c) in cs
    decreases |cs|
  {
    if cs != [] {
      var k := |cs| - 1;
      OnlyAtHas(cs[..k], node, c);
      assert cs == cs[..k] + [cs[k]];
    }
  }

  lemma {:induction false} AllCopiesHas(jobs: seq<Job>, c: (string, Job))
    ensures c in AllCopies(jobs) <==> exists k :: 0 <= k < |jobs| && c in Copies(jobs[k])
    decreases |jobs|
  {
    hide Copies;
    if jobs != [] {
      var n := |jobs| - 1;
      AllCopiesHas(jobs[..n], c);
      assert forall k :: 0 <= k < n ==> jobs[..n][k] == jobs[k];
    }
  }

  /** The share of job `j` that goes to position `i` of its nodes. */
  ghost predicate IsCopy(c: Job, j: Job, i: nat) {
    var n := |NodesOf(j)|;
    && i < n && c.jobid == j.jobid && c.node == j.node
    && c.cpus == if n == 1 then j.cpus else j.cpus / n + if i < j.cpus % n then 1 else 0
  }

  /** That share goes to this node. */
  ghost predicate PlacedAt(c: Job, j: Job, i: nat, node: string) {
    IsCopy(c, j, i) && NodesOf(j)[i] == node
  }

  lemma CopiesHas(j: Job, node: string, c: Job)
    ensures (node, c) in Copies(j) <==> exists i: nat :: PlacedAt(c, j, i, node)
  {
    hide NodesOf;
    var cs := Copies(j);
    if (node, c) in cs {
      var i :| 0 <= i < |cs| && cs[i] == (node, c);
      assert PlacedAt(c, j, i, node);
    }
    if i: nat :| PlacedAt(c, j, i, node) {
      assert cs[i] == (node, c);
    }
  }

  /** A node lists exactly the shares of the jobs placed on it: every job of the
      list appears on every node it expands to, and nothing else does. */
  lemma NodeLists(jobs: seq<Job>, m: map<string, seq<Job>>, node: string, c: Job)
    requires Grouped(AllCopies(jobs), m)
    ensures c in JobsAt(m, node) <==>
      exists k, i: nat :: 0 <= k < |jobs| && PlacedAt(c, jobs[k], i, node)
  {
    hide NodesOf, Copies, AllCopies, OnlyAt, PlacedAt;
    assert JobsAt(m, node) == OnlyAt(AllCopies(jobs), node);
    OnlyAtHas(AllCopies(jobs), node, c);
    AllCopiesHas(jobs, (node, c));
    forall k | 0 <= k < |jobs|
      ensures (node, c) in Copies(jobs[k]) <==> exists i: nat :: PlacedAt(c, jobs[k], i, node)
    {
      CopiesHas(jobs[k], node, c);
    }
  }

  function CpusOf(jobs: seq<Job>): int {
    if jobs == [] then 0 else CpusOf(jobs[..|jobs| - 1]) + jobs[|jobs| - 1].cpus
  }

  /** The CPUs of all jobs that are placed somewhere. */
  function PlacedCpus(jobs: seq<Job>): int {
    if jobs == [] then 0
    else PlacedCpus(jobs[..|jobs| - 1]) + if NodesOf(jobs[|jobs| - 1]) != [] then jobs[|jobs| - 1].cpus else 0
  }

  lemma {:induction false} CopyCpusConcat(a: seq<(string, Job)>, b: seq<(string, Job)>)
    ensures SumInts(CopyCpus(a + b)) == SumInts(CopyCpus(a)) + SumInts(CopyCpus(b))
    decreases |b|
  {
    if b == [] {
      assert a + b == a;
    } else {
      var k := |b| - 1;
      CopyCpusConcat(a, b[..k]);
      assert CopyCpus(a + b)[..|a + b| - 1] == CopyCpus(a + b[..k]) && CopyCpus(b)[..k] == CopyCpus(b[..k]);
    }
  }

  lemma {:induction false} AllCopiesConserve(jobs: seq<Job>)
    ensures SumInts(CopyCpus(AllCopies(jobs))) == PlacedCpus(jobs)
    decreases |jobs|
  {
    hide NodesOf, Copies;
    if jobs != [] {
      var n := |jobs| - 1;
      AllCopiesConserve(jobs[..n]);
      CopyCpusConcat(AllCopies(jobs[..n]), Copies(jobs[n]));
      CopiesConserve(jobs[n]);
      NoCopies(jobs[n]);
    }
  }

  lemma NoCopies(j: Job)
    ensures NodesOf(j) == [] ==> SumInts(CopyCpus(Copies(j))) == 0
  {
    hide NodesOf;
  }

  /** The CPUs that the copies put on one node. */
  function CpusAt(cs: seq<(string, Job)>): string -> real {
    (node: string) => CpusOf(OnlyAt(cs, node)) as real
  }

  lemma CpusAtStep(cs: seq<(string, Job)>, node: string)
    requires cs != []
    ensures var k := |cs| - 1;
      CpusAt(cs)(node) == CpusAt(cs[..k])(node) + if cs[k].0 == node then cs[k].1.cpus as real else 0.0
  {
    var k := |cs| - 1;
    var before := OnlyAt(cs[..k], node);
    assert (before + [cs[k].1])[..|before|] == before && before + [] == before;
  }

  lemma {:induction false} NodeSums(cs: seq<(string, Job)>, nodes: set<string>)
    requires forall c :: c in cs ==> c.0 in nodes
    ensures Sum(nodes, CpusAt(cs)) == SumInts(CopyCpus(cs)) as real
    decreases |cs|
  {
    hide CpusAt;
    if cs == [] {
      forall n ensures CpusAt(cs)(n) == 0.0 {
        NothingAt(n);
      }
      SumZero(nodes, CpusAt(cs));
    } else {
      var k := |cs| - 1;
      assert cs[k] in cs && forall c :: c in cs[..k] ==> c in cs;
      NodeSums(cs[..k], nodes);
      forall n ensures CpusAt(cs)(n) == CpusAt(cs[..k])(n) + if cs[k].0 == n then cs[k].1.cpus as real else 0.0 {
        CpusAtStep(cs, n);
      }
      SumBump(nodes, CpusAt(cs[..k]), CpusAt(cs), cs[k].0, cs[k].1.cpus as real);
      assert CopyCpus(cs)[..k] == CopyCpus(cs[..k]);
    }
  }

  lemma NothingAt(node: string)
    ensures CpusAt([])(node) == 0.0
  {
  }

  /** Over all nodes the lists hold the CPUs of all jobs that are placed. */
  lemma NodeListsConserve(jobs: seq<Job>, m: map<string, seq<Job>>)
    requires Grouped(AllCopies(jobs), m)
    ensures Sum(m.Keys, (node: string) => CpusOf(JobsAt(m, node)) as real) == PlacedCpus(jobs) as real
  {
    hide AllCopies, OnlyAt, NodesOf;
    var cs := AllCopies(jobs);
    forall c | c in cs ensures c.0 in m.Keys {
      OnlyAtHas(cs, c.0, c.1);
      assert JobsAt(m, c.0) == OnlyAt(cs, c.0);
    }
    NodeSums(cs, m.Keys);
    AllCopiesConserve(jobs);
    forall n ensures CpusOf(JobsAt(m, n)) as real == CpusAt(cs)(n) {
      assert JobsAt(m, n) == OnlyAt(cs, n);
    }
    SumSame(m.Keys, (node: string) => CpusOf(JobsAt(m, node)) as real, CpusAt(cs));
  }
}
