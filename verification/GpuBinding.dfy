/**
Binding one node's SLURM allocations to its physical GPUs.  The scheduler's
index is only a hint: a process's own cgroup job decides first, then the owner
of a process, and only reservations without a process are placed by the hint.
*/
module GpuBinding {

  type Jid = string
  type User = string
  type Key = string

  /** One physical GPU: the users of its processes, its minor or index, and the
      jobs the cgroups of its processes name. */
  datatype Card = Card(users: seq<User>, key: Key, jobs: seq<Jid>)

  /** The node's allocation, GRES index to job, in dictionary order. */
  type Hint = seq<(Key, Jid)>

  type Owners = map<Jid, User>

  /** What the phases update: one (job, user) per card, and the allocations not bound yet. */
  datatype Binding = Binding(out: seq<(Jid, User)>, remaining: seq<Jid>)

  const UNBOUND: (Jid, User) := ("", "")

  ghost predicate IsDictionary(hint: Hint) {
    forall i, j :: 0 <= i < j < |hint| ==> hint[i].0 != hint[j].0
  }

  function Jobs(hint: Hint): seq<Jid> {
    seq(|hint|, i requires 0 <= i < |hint| => hint[i].1)
  }

  function OwnerOf(owners: Owners, j: Jid): User {
    if j in owners then owners[j] else ""
  }

  function RemoveFirst(s: seq<Jid>, x: Jid): (r: seq<Jid>)
    ensures multiset(r) == multiset(s) - multiset{x}
  {
    if s == [] then []
    else if s[0] == x then assert s == [x] + s[1..]; s[1..]
    else assert s == [s[0]] + s[1..]; [s[0]] + RemoveFirst(s[1..], x)
  }

  /** The first of `jobs` that is still in `remaining`. */
  function FirstShared(jobs: seq<Jid>, remaining: seq<Jid>): (j: Jid)
    ensures j != "" ==> j in jobs && j in remaining
    ensures j == "" ==> "" in jobs || forall k :: k in jobs ==> k !in remaining
  {
    if jobs == [] then ""
    else if jobs[0] in remaining then jobs[0]
    else FirstShared(jobs[1..], remaining)
  }

  /** The first of `remaining` whose owner runs a process on the card. */
  function FirstOwned(remaining: seq<Jid>, owners: Owners, users: seq<User>): (j: Jid)
    ensures j != "" ==> j in remaining && OwnerOf(owners, j) in users
  {
    if remaining == [] then ""
    else if OwnerOf(owners, remaining[0]) in users then remaining[0]
    else FirstOwned(remaining[1..], owners, users)
  }

  function Bind(b: Binding, i: nat, j: Jid, owners: Owners): Binding
    requires i < |b.out|
  {
    Binding(b.out[i := (j, OwnerOf(owners, j))], RemoveFirst(b.remaining, j))
  }

  /** Phase 0: the process's own cgroup names its job. */
  function ByCgroup(gpus: seq<Card>, owners: Owners, i: nat, b: Binding): Binding
    requires i <= |gpus| == |b.out|
    decreases |gpus| - i
  {
    if i == |gpus| then b
    else
      var j := FirstShared(gpus[i].jobs, b.remaining);
      ByCgroup(gpus, owners, i + 1, if j != "" then Bind(b, i, j, owners) else b)
  }

  /** Phase 1: an owner of an allocation runs a process on an unbound card. */
  function ByOwner(gpus: seq<Card>, owners: Owners, i: nat, b: Binding): Binding
    requires i <= |gpus| == |b.out|
    decreases |gpus| - i
  {
    if i == |gpus| then b
    else if b.out[i].0 != "" || gpus[i].users == [] then ByOwner(gpus, owners, i + 1, b)
    else
      var j := FirstOwned(b.remaining, owners, gpus[i].users);
      ByOwner(gpus, owners, i + 1, if j != "" then Bind(b, i, j, owners) else b)
  }

  predicate Free(gpus: seq<Card>, out: seq<(Jid, User)>, i: nat)
    requires i < |gpus| == |out|
  {
    out[i].0 == "" && gpus[i].users == []
  }

  predicate Hinted(hint: Hint, k: Key, j: Jid) {
    exists p :: 0 <= p < |hint| && hint[p] == (k, j)
  }

  /** The first free card from `i` on that `hint` prefers for `j`, if any. */
  function FirstPreferred(gpus: seq<Card>, hint: Hint, out: seq<(Jid, User)>, j: Jid, i: nat): (t: nat)
    requires i <= |gpus| == |out|
    ensures i <= t <= |gpus|
    ensures t < |gpus| ==> Free(gpus, out, t) && Hinted(hint, gpus[t].key, j)
    ensures forall k :: i <= k < t ==> !(Free(gpus, out, k) && Hinted(hint, gpus[k].key, j))
    decreases |gpus| - i
  {
    if i == |gpus| || (Free(gpus, out, i) && Hinted(hint, gpus[i].key, j)) then i
    else FirstPreferred(gpus, hint, out, j, i + 1)
  }

  function FirstFree(gpus: seq<Card>, out: seq<(Jid, User)>, i: nat): (t: nat)
    requires i <= |gpus| == |out|
    ensures i <= t <= |gpus|
    ensures t < |gpus| ==> Free(gpus, out, t)
    ensures forall k :: i <= k < t ==> !Free(gpus, out, k)
    decreases |gpus| - i
  {
    if i == |gpus| || Free(gpus, out, i) then i else FirstFree(gpus, out, i + 1)
  }

  /** Where phase 2 puts `j`: |gpus| means nowhere. */
  function Target(gpus: seq<Card>, hint: Hint, out: seq<(Jid, User)>, j: Jid): nat
    requires |gpus| == |out|
  {
    var t := FirstPreferred(gpus, hint, out, j, 0);
    if t < |gpus| then t else FirstFree(gpus, out, 0)
  }

  /** Phase 2: reservations without a process, one after the other. */
  function ByHint(gpus: seq<Card>, hint: Hint, owners: Owners, out: seq<(Jid, User)>, todo: seq<Jid>): seq<(Jid, User)>
    requires |gpus| == |out|
    decreases |todo|
  {
    if todo == [] then out
    else
      var t := Target(gpus, hint, out, todo[0]);
      ByHint(gpus, hint, owners,
             if t < |gpus| then out[t := (todo[0], OwnerOf(owners, todo[0]))] else out, todo[1..])
  }

  function Unbound(n: nat): seq<(Jid, User)> {
    seq(n, _ => UNBOUND)
  }

  function Start(hint: Hint, gpus: seq<Card>): Binding {
    Binding(Unbound(|gpus|), Jobs(hint))
  }

  function AfterCgroup(hint: Hint, owners: Owners, gpus: seq<Card>): (b: Binding)
    ensures |b.out| == |gpus|
  {
    ByCgroupLength(gpus, owners, 0, Start(hint, gpus));
    ByCgroup(gpus, owners, 0, Start(hint, gpus))
  }

  function AfterOwner(hint: Hint, owners: Owners, gpus: seq<Card>): (b: Binding)
    ensures |b.out| == |gpus|
  {
    ByOwnerLength(gpus, owners, 0, AfterCgroup(hint, owners, gpus));
    ByOwner(gpus, owners, 0, AfterCgroup(hint, owners, gpus))
  }

  function Reconciled(hint: Hint, owners: Owners, gpus: seq<Card>): seq<(Jid, User)> {
    var b := AfterOwner(hint, owners, gpus);
    ByHint(gpus, hint, owners, b.out, b.remaining)
  }

  lemma {:induction false} ByCgroupLength(gpus: seq<Card>, owners: Owners, i: nat, b: Binding)
    requires i <= |gpus| == |b.out|
    ensures |ByCgroup(gpus, owners, i, b).out| == |gpus|
    decreases |gpus| - i
  {
    if i < |gpus| {
      var j := FirstShared(gpus[i].jobs, b.remaining);
      ByCgroupLength(gpus, owners, i + 1, if j != "" then Bind(b, i, j, owners) else b);
    }
  }

  lemma {:induction false} ByOwnerLength(gpus: seq<Card>, owners: Owners, i: nat, b: Binding)
    requires i <= |gpus| == |b.out|
    ensures |ByOwner(gpus, owners, i, b).out| == |gpus|
    decreases |gpus| - i
  {
    if i < |gpus| {
      var j := FirstOwned(b.remaining, owners, gpus[i].users);
      var skip := b.out[i].0 != "" || gpus[i].users == [];
      ByOwnerLength(gpus, owners, i + 1, if !skip && j != "" then Bind(b, i, j, owners) else b);
    }
  }

  // ---------------------------------------------------------------------------
  // The routine itself
  // ---------------------------------------------------------------------------

  method ReconcileGpuAlloc(hint: Hint, owners: Owners, gpus: seq<Card>) returns (out: seq<(Jid, User)>)
    ensures out == Reconciled(hint, owners, gpus)
  {
    hide RemoveFirst, FirstShared, FirstOwned, FirstPreferred, FirstFree, OwnerOf;
    var remaining := Jobs(hint);
    out := Unbound(|gpus|);
    for i := 0 to |gpus|
      invariant |out| == |gpus|
      invariant ByCgroup(gpus, owners, i, Binding(out, remaining)) == AfterCgroup(hint, owners, gpus)
    {
      var j := FirstShared(gpus[i].jobs, remaining);
      if j != "" {
        out := out[i := (j, OwnerOf(owners, j))];
        remaining := RemoveFirst(remaining, j);
      }
    }
    for i := 0 to |gpus|
      invariant |out| == |gpus|
      invariant ByOwner(gpus, owners, i, Binding(out, remaining)) == AfterOwner(hint, owners, gpus)
    {
      if out[i].0 != "" || gpus[i].users == [] {
        continue;
      }
      var j := FirstOwned(remaining, owners, gpus[i].users);
      if j != "" {
        out := out[i := (j, OwnerOf(owners, j))];
        remaining := RemoveFirst(remaining, j);
      }
    }
    assert Binding(out, remaining) == AfterOwner(hint, owners, gpus);
    for i := 0 to |remaining|
      invariant |out| == |gpus|
      invariant ByHint(gpus, hint, owners, out, remaining[i..]) == Reconciled(hint, owners, gpus)
    {
      var t := FirstPreferred(gpus, hint, out, remaining[i], 0);
      if t == |gpus| {
        t := FirstFree(gpus, out, 0);
      }
      assert remaining[i..][1..] == remaining[i + 1..];
      if t < |gpus| {
        out := out[t := (remaining[i], OwnerOf(owners, remaining[i]))];
      }
    }
  }

  // ---------------------------------------------------------------------------
  // Conservation and evidence
  // ---------------------------------------------------------------------------

  /** The jobs bound so far, with multiplicity. */
  ghost function Bound(out: seq<(Jid, User)>): multiset<Jid> {
    if out == [] then multiset{}
    else (if out[0].0 == "" then multiset{} else multiset{out[0].0}) + Bound(out[1..])
  }

  lemma {:induction false} BoundUpdate(out: seq<(Jid, User)>, i: nat, p: (Jid, User))
    requires i < |out| && out[i].0 == "" && p.0 != ""
    ensures Bound(out[i := p]) == Bound(out) + multiset{p.0}
    decreases |out|
  {
    if i > 0 {
      assert out[i := p][1..] == out[1..][i - 1 := p];
      BoundUpdate(out[1..], i - 1, p);
    } else {
      assert out[i := p][1..] == out[1..];
    }
  }

  lemma {:induction false} BoundOfUnbound(n: nat)
    ensures Bound(Unbound(n)) == multiset{}
  {
    if n > 0 {
      assert Unbound(n)[1..] == Unbound(n - 1);
      BoundOfUnbound(n - 1);
    }
  }

  ghost predicate NonEmptyIds(hint: Hint) {
    forall i :: 0 <= i < |hint| ==> hint[i].1 != ""
  }

  /** A bound card shows evidence for its job, and carries the job's owner. */
  ghost predicate Evident(gpus: seq<Card>, owners: Owners, out: seq<(Jid, User)>) {
    |out| == |gpus| && forall i :: 0 <= i < |gpus| ==>
      if out[i].0 == "" then out[i] == UNBOUND
      else
        && out[i].1 == OwnerOf(owners, out[i].0)
        && (out[i].0 in gpus[i].jobs || OwnerOf(owners, out[i].0) in gpus[i].users || gpus[i].users == [])
  }

  /** Every allocation is bound once or still remaining. */
  ghost predicate Sound(hint: Hint, gpus: seq<Card>, owners: Owners, b: Binding) {
    Evident(gpus, owners, b.out) && Bound(b.out) + multiset(b.remaining) == multiset(Jobs(hint))
  }

  lemma BindKeeps(hint: Hint, gpus: seq<Card>, owners: Owners, b: Binding, i: nat, j: Jid)
    requires Sound(hint, gpus, owners, b) && i < |gpus| && b.out[i].0 == "" && j != "" && j in b.remaining
    requires j in gpus[i].jobs || OwnerOf(owners, j) in gpus[i].users || gpus[i].users == []
    ensures Sound(hint, gpus, owners, Bind(b, i, j, owners))
  {
    hide Bound, RemoveFirst;
    BoundUpdate(b.out, i, (j, OwnerOf(owners, j)));
    MovesOver(Bound(b.out), multiset(b.remaining), j);
  }

  lemma MovesOver(bound: multiset<Jid>, remaining: multiset<Jid>, j: Jid)
    requires j in remaining
    ensures (bound + multiset{j}) + (remaining - multiset{j}) == bound + remaining
  {
  }

  lemma {:induction false} ByCgroupKeeps(hint: Hint, gpus: seq<Card>, owners: Owners, i: nat, b: Binding)
    requires i <= |gpus| && Sound(hint, gpus, owners, b)
    requires forall k :: i <= k < |gpus| ==> b.out[k].0 == ""
    ensures Sound(hint, gpus, owners, ByCgroup(gpus, owners, i, b))
    decreases |gpus| - i
  {
    if i < |gpus| {
      var j := FirstShared(gpus[i].jobs, b.remaining);
      if j != "" {
        BindKeeps(hint, gpus, owners, b, i, j);
      }
      ByCgroupKeeps(hint, gpus, owners, i + 1, if j != "" then Bind(b, i, j, owners) else b);
    }
  }

  lemma {:induction false} ByOwnerKeeps(hint: Hint, gpus: seq<Card>, owners: Owners, i: nat, b: Binding)
    requires i <= |gpus| && Sound(hint, gpus, owners, b)
    ensures Sound(hint, gpus, owners, ByOwner(gpus, owners, i, b))
    decreases |gpus| - i
  {
    if i < |gpus| {
      var j := FirstOwned(b.remaining, owners, gpus[i].users);
      var skip := b.out[i].0 != "" || gpus[i].users == [];
      if !skip && j != "" {
        BindKeeps(hint, gpus, owners, b, i, j);
      }
      ByOwnerKeeps(hint, gpus, owners, i + 1, if !skip && j != "" then Bind(b, i, j, owners) else b);
    }
  }

  ghost predicate NoFreeCard(gpus: seq<Card>, out: seq<(Jid, User)>)
    requires |gpus| == |out|
  {
    forall i :: 0 <= i < |gpus| ==> !Free(gpus, out, i)
  }

  lemma PlaceKeeps(gpus: seq<Card>, owners: Owners, out: seq<(Jid, User)>, t: nat, j: Jid)
    requires Evident(gpus, owners, out) && t < |gpus| && Free(gpus, out, t) && j != ""
    ensures var out' := out[t := (j, OwnerOf(owners, j))];
      Evident(gpus, owners, out') && Bound(out') == Bound(out) + multiset{j}
  {
    BoundUpdate(out, t, (j, OwnerOf(owners, j)));
  }

  /** Phase 2 so far: `left` collects the allocations it found no card for. */
  ghost predicate Placing(hint: Hint, gpus: seq<Card>, owners: Owners, out: seq<(Jid, User)>, todo: seq<Jid>, left: multiset<Jid>) {
    && |out| == |gpus| && Evident(gpus, owners, out)
    && Bound(out) + multiset(todo) + left == multiset(Jobs(hint))
    && (forall j :: j in todo ==> j != "")
    && (left != multiset{} ==> NoFreeCard(gpus, out))
  }

  lemma PlacingStep(hint: Hint, gpus: seq<Card>, owners: Owners, out: seq<(Jid, User)>, todo: seq<Jid>, left: multiset<Jid>)
    returns (left': multiset<Jid>)
    requires todo != [] && Placing(hint, gpus, owners, out, todo, left)
    ensures var t := Target(gpus, hint, out, todo[0]);
      Placing(hint, gpus, owners, if t < |gpus| then out[t := (todo[0], OwnerOf(owners, todo[0]))] else out, todo[1..], left')
  {
    hide Bound, FirstPreferred, FirstFree, Evident, Jobs;
    var j, t := todo[0], Target(gpus, hint, out, todo[0]);
    assert todo == [j] + todo[1..] && j in todo;
    assert forall k :: k in todo[1..] ==> k in todo;
    if t < |gpus| {
      left' := left;
      PlaceKeeps(gpus, owners, out, t, j);
    } else {
      left' := left + multiset{j};
    }
  }

  lemma {:induction false} ByHintKeeps(hint: Hint, gpus: seq<Card>, owners: Owners, out: seq<(Jid, User)>, todo: seq<Jid>, left: multiset<Jid>)
    requires Placing(hint, gpus, owners, out, todo, left)
    ensures var r := ByHint(gpus, hint, owners, out, todo);
      && |r| == |gpus| && Evident(gpus, owners, r) && Bound(r) <= multiset(Jobs(hint))
      && (Bound(r) != multiset(Jobs(hint)) ==> NoFreeCard(gpus, r))
    decreases |todo|
  {
    hide Bound, Target, Evident, Jobs;
    if todo == [] {
      assert Bound(out) + left == multiset(Jobs(hint));
    } else {
      var left' := PlacingStep(hint, gpus, owners, out, todo, left);
      hide Placing;
      var t := Target(gpus, hint, out, todo[0]);
      ByHintKeeps(hint, gpus, owners, if t < |gpus| then out[t := (todo[0], OwnerOf(owners, todo[0]))] else out, todo[1..], left');
    }
  }

  /** No allocation is bound twice or invented, every bound card has evidence
      for its job, and an allocation stays unplaced only for want of an unbound
      card without processes. */
  lemma BindingIsSound(hint: Hint, owners: Owners, gpus: seq<Card>)
    requires NonEmptyIds(hint)
    ensures var out := Reconciled(hint, owners, gpus);
      && Evident(gpus, owners, out)
      && Bound(out) <= multiset(Jobs(hint))
      && (Bound(out) != multiset(Jobs(hint)) ==> NoFreeCard(gpus, out))
  {
    var b0 := Start(hint, gpus);
    BoundOfUnbound(|gpus|);
    ByCgroupKeeps(hint, gpus, owners, 0, b0);
    var b1 := AfterCgroup(hint, owners, gpus);
    ByOwnerKeeps(hint, gpus, owners, 0, b1);
    var b2 := AfterOwner(hint, owners, gpus);
    forall j | j in b2.remaining ensures j != "" {
      assert j in multiset(b2.remaining);
      assert j in multiset(Jobs(hint));
      assert j in Jobs(hint);
    }
    ByHintKeeps(hint, gpus, owners, b2.out, b2.remaining, multiset{});
  }

  // ---------------------------------------------------------------------------
  // When all evidence agrees with the hint, the result is the hint
  // ---------------------------------------------------------------------------

  function HintFor(hint: Hint, k: Key): Jid {
    if hint == [] then "" else if hint[0].0 == k then hint[0].1 else HintFor(hint[1..], k)
  }

  ghost predicate IsCard(gpus: seq<Card>, k: Key) {
    exists i :: 0 <= i < |gpus| && gpus[i].key == k
  }

  /** Single-type nodes: keys identify cards, every hinted key is a card, and a
      card's processes all belong to the one job the hint gives its key. */
  ghost predicate AgreesWithHint(hint: Hint, gpus: seq<Card>) {
    && IsDictionary(hint) && NonEmptyIds(hint)
    && (forall i, j :: 0 <= i < j < |gpus| ==> gpus[i].key != gpus[j].key)
    && (forall p :: 0 <= p < |hint| ==> IsCard(gpus, hint[p].0))
    && (forall i, j :: 0 <= i < |gpus| && j in gpus[i].jobs ==> j == HintFor(hint, gpus[i].key) != "")
    && (forall i :: 0 <= i < |gpus| && gpus[i].users != [] ==> gpus[i].jobs != [])
  }

  lemma {:induction false} HintedIsHintFor(hint: Hint, k: Key, j: Jid)
    requires IsDictionary(hint) && NonEmptyIds(hint) && j != ""
    ensures Hinted(hint, k, j) <==> HintFor(hint, k) == j
  {
    if hint != [] {
      var rest := hint[1..];
      HintedIsHintFor(rest, k, j);
      assert Hinted(rest, k, j) ==> Hinted(hint, k, j) by {
        if Hinted(rest, k, j) {
          var p :| 0 <= p < |rest| && rest[p] == (k, j);
          assert hint[p + 1] == (k, j);
        }
      }
      if Hinted(hint, k, j) && hint[0].0 != k {
        var p :| 0 <= p < |hint| && hint[p] == (k, j);
        assert rest[p - 1] == (k, j);
      }
      if HintFor(hint, k) == j && hint[0].0 == k {
        assert hint[0] == (k, j);
      }
    }
  }

  /** The jobs the hint gives to the cards that are still unbound. */
  ghost function Wanted(hint: Hint, gpus: seq<Card>, out: seq<(Jid, User)>): multiset<Jid>
    requires |gpus| == |out|
  {
    if gpus == [] then multiset{}
    else
      var j := HintFor(hint, gpus[0].key);
      (if out[0].0 == "" && j != "" then multiset{j} else multiset{}) + Wanted(hint, gpus[1..], out[1..])
  }

  lemma {:induction false} WantedUpdate(hint: Hint, gpus: seq<Card>, out: seq<(Jid, User)>, i: nat, p: (Jid, User))
    requires i < |gpus| == |out| && out[i].0 == "" && p.0 != "" && HintFor(hint, gpus[i].key) != ""
    ensures Wanted(hint, gpus, out) == Wanted(hint, gpus, out[i := p]) + multiset{HintFor(hint, gpus[i].key)}
    decreases |gpus|
  {
    if i > 0 {
      assert out[i := p][1..] == out[1..][i - 1 := p];
      WantedUpdate(hint, gpus[1..], out[1..], i - 1, p);
    } else {
      assert out[i := p][1..] == out[1..];
    }
  }

  lemma {:induction false} WantedHas(hint: Hint, gpus: seq<Card>, out: seq<(Jid, User)>, j: Jid)
    requires |gpus| == |out|
    ensures j in Wanted(hint, gpus, out) <==>
      j != "" && exists i :: 0 <= i < |gpus| && out[i].0 == "" && HintFor(hint, gpus[i].key) == j
    decreases |gpus|
  {
    if gpus != [] {
      var g, o := gpus[1..], out[1..];
      WantedHas(hint, g, o, j);
      if j in Wanted(hint, g, o) {
        var i :| 0 <= i < |g| && o[i].0 == "" && HintFor(hint, g[i].key) == j;
        assert out[i + 1].0 == "" && HintFor(hint, gpus[i + 1].key) == j;
      } else if j != "" && exists i :: 0 <= i < |gpus| && out[i].0 == "" && HintFor(hint, gpus[i].key) == j {
        var i :| 0 <= i < |gpus| && out[i].0 == "" && HintFor(hint, gpus[i].key) == j;
        assert i > 0 ==> o[i - 1].0 == "" && HintFor(hint, g[i - 1].key) == j;
      }
    }
  }

  /** Peeling one hint entry off: its card no longer wants its job. */
  lemma {:induction false} WantedPeel(hint: Hint, gpus: seq<Card>, i: nat)
    requires hint != [] && IsDictionary(hint) && NonEmptyIds(hint) && i < |gpus| && gpus[i].key == hint[0].0
    requires forall a, b :: 0 <= a < b < |gpus| ==> gpus[a].key != gpus[b].key
    ensures Wanted(hint, gpus, Unbound(|gpus|)) == Wanted(hint[1..], gpus, Unbound(|gpus|)) + multiset{hint[0].1}
    decreases |gpus|
  {
    var rest := gpus[1..];
    assert Unbound(|gpus|)[1..] == Unbound(|rest|);
    HintedIsHintFor(hint[1..], hint[0].0, hint[0].1);
    if i > 0 {
      assert rest[i - 1].key == hint[0].0;
      WantedPeel(hint, rest, i - 1);
      assert gpus[0].key != hint[0].0;
    } else {
      NotHintedIsEmpty(hint[1..], gpus[0].key);
      WantedSame(hint, rest);
    }
  }

  lemma {:induction false} NotHintedIsEmpty(hint: Hint, k: Key)
    requires forall p :: 0 <= p < |hint| ==> hint[p].0 != k
    ensures HintFor(hint, k) == ""
  {
    if hint != [] {
      NotHintedIsEmpty(hint[1..], k);
    }
  }

  lemma {:induction false} WantedSame(hint: Hint, gpus: seq<Card>)
    requires hint != [] && forall i :: 0 <= i < |gpus| ==> gpus[i].key != hint[0].0
    ensures Wanted(hint, gpus, Unbound(|gpus|)) == Wanted(hint[1..], gpus, Unbound(|gpus|))
    decreases |gpus|
  {
    if gpus != [] {
      assert Unbound(|gpus|)[1..] == Unbound(|gpus| - 1);
      WantedSame(hint, gpus[1..]);
    }
  }

  lemma {:induction false} WantedNothing(gpus: seq<Card>)
    ensures Wanted([], gpus, Unbound(|gpus|)) == multiset{}
    decreases |gpus|
  {
    if gpus != [] {
      assert Unbound(|gpus|)[1..] == Unbound(|gpus| - 1);
      WantedNothing(gpus[1..]);
    }
  }

  lemma {:induction false} WantedAtStart(hint: Hint, gpus: seq<Card>)
    requires IsDictionary(hint) && NonEmptyIds(hint)
    requires forall a, b :: 0 <= a < b < |gpus| ==> gpus[a].key != gpus[b].key
    requires forall p :: 0 <= p < |hint| ==> IsCard(gpus, hint[p].0)
    ensures Wanted(hint, gpus, Unbound(|gpus|)) == multiset(Jobs(hint))
    decreases |hint|
  {
    hide Wanted, HintFor;
    if hint == [] {
      WantedNothing(gpus);
    } else {
      assert IsCard(gpus, hint[0].0);
      var i :| 0 <= i < |gpus| && gpus[i].key == hint[0].0;
      WantedPeel(hint, gpus, i);
      WantedAtStart(hint[1..], gpus);
      assert Jobs(hint) == [hint[0].1] + Jobs(hint[1..]);
    }
  }

  /** Bound cards carry their hinted job, and what remains is what the others want. */
  ghost predicate OnTrack(hint: Hint, gpus: seq<Card>, out: seq<(Jid, User)>, remaining: seq<Jid>) {
    && |out| == |gpus|
    && (forall i :: 0 <= i < |gpus| ==> out[i].0 == "" || out[i].0 == HintFor(hint, gpus[i].key))
    && Wanted(hint, gpus, out) == multiset(remaining)
  }

  lemma BindOnTrack(hint: Hint, gpus: seq<Card>, out: seq<(Jid, User)>, remaining: seq<Jid>, i: nat, u: User)
    requires OnTrack(hint, gpus, out, remaining) && i < |gpus| && out[i].0 == "" && HintFor(hint, gpus[i].key) != ""
    ensures var h := HintFor(hint, gpus[i].key);
      h in remaining && OnTrack(hint, gpus, out[i := (h, u)], RemoveFirst(remaining, h))
  {
    hide Wanted, RemoveFirst, HintFor;
    var h := HintFor(hint, gpus[i].key);
    WantedAfterBind(hint, gpus, out, remaining, i, u);
    forall k | 0 <= k < |gpus|
      ensures out[i := (h, u)][k].0 == "" || out[i := (h, u)][k].0 == HintFor(hint, gpus[k].key)
    {
      assert k != i ==> out[i := (h, u)][k] == out[k];
    }
  }

  lemma WantedAfterBind(hint: Hint, gpus: seq<Card>, out: seq<(Jid, User)>, remaining: seq<Jid>, i: nat, u: User)
    requires |out| == |gpus| && Wanted(hint, gpus, out) == multiset(remaining)
    requires i < |gpus| && out[i].0 == "" && HintFor(hint, gpus[i].key) != ""
    ensures var h := HintFor(hint, gpus[i].key);
      h in remaining && Wanted(hint, gpus, out[i := (h, u)]) == multiset(RemoveFirst(remaining, h))
  {
    hide Wanted, RemoveFirst, HintFor;
    var h := HintFor(hint, gpus[i].key);
    var after := Wanted(hint, gpus, out[i := (h, u)]);
    WantedUpdate(hint, gpus, out, i, (h, u));
    assert multiset(remaining) == after + multiset{h};
    assert h in multiset(remaining);
    assert multiset(RemoveFirst(remaining, h)) == multiset(remaining) - multiset{h};
    assert (after + multiset{h}) - multiset{h} == after;
  }

  lemma {:induction false} CgroupPhaseOnTrack(hint: Hint, owners: Owners, gpus: seq<Card>, i: nat, b: Binding)
    requires AgreesWithHint(hint, gpus) && i <= |gpus| && OnTrack(hint, gpus, b.out, b.remaining)
    requires forall k :: i <= k < |gpus| ==> b.out[k].0 == ""
    requires forall k :: 0 <= k < i && gpus[k].jobs != [] ==> b.out[k].0 != ""
    ensures var r := ByCgroup(gpus, owners, i, b);
      && OnTrack(hint, gpus, r.out, r.remaining)
      && forall k :: 0 <= k < |gpus| && gpus[k].jobs != [] ==> r.out[k].0 != ""
    decreases |gpus| - i
  {
    hide Wanted, RemoveFirst, HintFor, AgreesWithHint;
    if i < |gpus| {
      if gpus[i].jobs == [] {
        CgroupPhaseOnTrack(hint, owners, gpus, i + 1, b);
      } else {
        CgroupBindsHinted(hint, owners, gpus, i, b);
        hide FirstShared;
        CgroupPhaseOnTrack(hint, owners, gpus, i + 1, Bind(b, i, FirstShared(gpus[i].jobs, b.remaining), owners));
      }
    }
  }

  /** A card with processes gets the job the hint gives it. */
  lemma CgroupBindsHinted(hint: Hint, owners: Owners, gpus: seq<Card>, i: nat, b: Binding)
    requires AgreesWithHint(hint, gpus) && OnTrack(hint, gpus, b.out, b.remaining)
    requires i < |gpus| && b.out[i].0 == "" && gpus[i].jobs != []
    ensures var j := FirstShared(gpus[i].jobs, b.remaining);
      j == HintFor(hint, gpus[i].key) != ""
      && OnTrack(hint, gpus, Bind(b, i, j, owners).out, Bind(b, i, j, owners).remaining)
  {
    hide Wanted, RemoveFirst, HintFor, OnTrack;
    var h := HintFor(hint, gpus[i].key);
    assert gpus[i].jobs[0] in gpus[i].jobs;
    BindOnTrack(hint, gpus, b.out, b.remaining, i, OwnerOf(owners, h));
    assert FirstShared(gpus[i].jobs, b.remaining) == h;
  }

  lemma {:induction false} OwnerPhaseIdle(owners: Owners, gpus: seq<Card>, i: nat, b: Binding)
    requires i <= |gpus| == |b.out|
    requires forall k :: 0 <= k < |gpus| && gpus[k].users != [] ==> b.out[k].0 != ""
    ensures ByOwner(gpus, owners, i, b) == b
    decreases |gpus| - i
  {
    if i < |gpus| {
      OwnerPhaseIdle(owners, gpus, i + 1, b);
    }
  }

  lemma {:induction false} HintPhaseOnTrack(hint: Hint, owners: Owners, gpus: seq<Card>, out: seq<(Jid, User)>, todo: seq<Jid>)
    requires AgreesWithHint(hint, gpus) && OnTrack(hint, gpus, out, todo)
    requires forall k :: 0 <= k < |gpus| && gpus[k].users != [] ==> out[k].0 != ""
    ensures var r := ByHint(gpus, hint, owners, out, todo);
      |r| == |gpus| && forall i :: 0 <= i < |gpus| ==> r[i].0 == HintFor(hint, gpus[i].key)
    decreases |todo|
  {
    hide Wanted, HintFor, Hinted, Target;
    if todo == [] {
      forall i | 0 <= i < |gpus| ensures out[i].0 == HintFor(hint, gpus[i].key) {
        WantedHas(hint, gpus, out, HintFor(hint, gpus[i].key));
      }
    } else {
      var j, t := todo[0], Target(gpus, hint, out, todo[0]);
      TargetIsWanted(hint, gpus, out, todo);
      BindOnTrack(hint, gpus, out, todo, t, OwnerOf(owners, j));
      assert RemoveFirst(todo, j) == todo[1..];
      HintPhaseOnTrack(hint, owners, gpus, out[t := (j, OwnerOf(owners, j))], todo[1..]);
    }
  }

  /** The next job still to be bound has a free card that wants it. */
  lemma TargetIsWanted(hint: Hint, gpus: seq<Card>, out: seq<(Jid, User)>, todo: seq<Jid>)
    requires AgreesWithHint(hint, gpus) && OnTrack(hint, gpus, out, todo) && todo != []
    requires forall k :: 0 <= k < |gpus| && gpus[k].users != [] ==> out[k].0 != ""
    ensures var t := Target(gpus, hint, out, todo[0]);
      t < |gpus| && out[t].0 == "" && HintFor(hint, gpus[t].key) == todo[0] != ""
  {
    hide Wanted, HintFor, Hinted;
    var j, t := todo[0], Target(gpus, hint, out, todo[0]);
    assert j in multiset(todo) && IsDictionary(hint) && NonEmptyIds(hint) by {
      assert AgreesWithHint(hint, gpus) && j in todo;
    }
    WantedHas(hint, gpus, out, j);
    var i :| 0 <= i < |gpus| && out[i].0 == "" && HintFor(hint, gpus[i].key) == j;
    HintedIsHintFor(hint, gpus[i].key, j);
    assert Free(gpus, out, i);
    HintedIsHintFor(hint, gpus[t].key, j);
  }

  /** If all process evidence agrees with the hint, the binding is the hint. */
  lemma AgreementGivesHint(hint: Hint, owners: Owners, gpus: seq<Card>)
    requires AgreesWithHint(hint, gpus)
    ensures var out := Reconciled(hint, owners, gpus);
      && |out| == |gpus|
      && forall i :: 0 <= i < |gpus| ==>
        out[i].0 == HintFor(hint, gpus[i].key) && out[i].1 == (if out[i].0 == "" then "" else OwnerOf(owners, out[i].0))
  {
    WantedAtStart(hint, gpus);
    CgroupPhaseOnTrack(hint, owners, gpus, 0, Start(hint, gpus));
    var b := AfterCgroup(hint, owners, gpus);
    OwnerPhaseIdle(owners, gpus, 0, b);
    HintPhaseOnTrack(hint, owners, gpus, b.out, b.remaining);
    BindingIsSound(hint, owners, gpus);
  }
}
