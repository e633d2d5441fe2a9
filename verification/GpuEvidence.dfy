/**
What the binding promises beyond soundness: evidence comes first.  A job named by
a card's own cgroups, or owned by a user with a process there, is never placed
elsewhere by a weaker reason while that card goes without it.
*/
module GpuEvidence {
  import opened GpuBinding

  /** How many cards are bound to a job. */
  function Copies(out: seq<(Jid, User)>, j: Jid): nat {
    multiset(Names(out))[j]
  }

  function Names(out: seq<(Jid, User)>): seq<Jid> {
    seq(|out|, i requires 0 <= i < |out| => out[i].0)
  }

  lemma {:induction false} BoundCounts(out: seq<(Jid, User)>, j: Jid)
    requires j != ""
    ensures Bound(out)[j] == Copies(out, j)
    decreases |out|
  {
    if out != [] {
      BoundCounts(out[1..], j);
      assert Names(out) == [out[0].0] + Names(out[1..]);
    }
  }

  /** A cgroup of a process on the card names the job. */
  predicate CgroupSays(g: Card, j: Jid) {
    j in g.jobs
  }

  /** The job's owner runs a process on the card. */
  predicate OwnerSays(g: Card, owners: Owners, j: Jid) {
    (if j in owners then owners[j] else "") in g.users
  }

  /** The card is unbound, or bound to a job that its cgroups do not name. */
  predicate Unexplained(g: Card, bound: Jid) {
    bound == "" || !CgroupSays(g, bound)
  }

  /** The first phase leaves no allocation over that an unexplained card names. */
  ghost predicate CgroupsServed(gpus: seq<Card>, n: nat, b: Binding)
    requires n <= |gpus| == |b.out|
  {
    forall i, j :: 0 <= i < n && Unexplained(gpus[i], b.out[i].0) && CgroupSays(gpus[i], j) ==> j !in b.remaining
  }

  ghost predicate CgroupsOnly(gpus: seq<Card>, b: Binding)
    requires |gpus| == |b.out|
  {
    forall k :: 0 <= k < |gpus| && b.out[k].0 != "" ==> CgroupSays(gpus[k], b.out[k].0)
  }

  lemma RemainsSubset(s: seq<Jid>, x: Jid, j: Jid)
    requires j in RemoveFirst(s, x)
    ensures j in s
  {
    assert j in multiset(RemoveFirst(s, x));
    assert j in multiset(s);
  }

  lemma {:induction false} FirstSharedServes(jobs: seq<Jid>, remaining: seq<Jid>, j: Jid)
    requires "" !in remaining && FirstShared(jobs, remaining) == "" && j in jobs
    ensures j !in remaining
    decreases |jobs|
  {
    if jobs[0] != j {
      FirstSharedServes(jobs[1..], remaining, j);
    }
  }

  lemma {:induction false} FirstOwnedServes(remaining: seq<Jid>, owners: Owners, users: seq<User>, j: Jid)
    requires "" !in remaining && FirstOwned(remaining, owners, users) == "" && OwnerOf(owners, j) in users
    ensures j !in remaining
    decreases |remaining|
  {
    if remaining != [] {
      assert remaining[0] in remaining;
      FirstOwnedServes(remaining[1..], owners, users, j);
    }
  }

  lemma {:induction false} ByCgroupServes(gpus: seq<Card>, owners: Owners, i: nat, b: Binding)
    requires i <= |gpus| == |b.out| && "" !in b.remaining
    requires forall k :: i <= k < |gpus| ==> b.out[k].0 == ""
    requires CgroupsServed(gpus, i, b) && CgroupsOnly(gpus, b)
    ensures var r := ByCgroup(gpus, owners, i, b);
      |r.out| == |gpus| && CgroupsServed(gpus, |gpus|, r) && CgroupsOnly(gpus, r) && "" !in r.remaining
    decreases |gpus| - i
  {
    if i < |gpus| {
      var j := FirstShared(gpus[i].jobs, b.remaining);
      var b' := if j != "" then Bind(b, i, j, owners) else b;
      CgroupStepServes(gpus, owners, i, b);
      ByCgroupServes(gpus, owners, i + 1, b');
    }
  }

  lemma CgroupStepServes(gpus: seq<Card>, owners: Owners, i: nat, b: Binding)
    requires i < |gpus| == |b.out| && "" !in b.remaining && b.out[i].0 == ""
    requires CgroupsServed(gpus, i, b) && CgroupsOnly(gpus, b)
    ensures var j := FirstShared(gpus[i].jobs, b.remaining);
      var b' := if j != "" then Bind(b, i, j, owners) else b;
      CgroupsServed(gpus, i + 1, b') && CgroupsOnly(gpus, b') && "" !in b'.remaining
  {
    hide FirstShared, RemoveFirst;
    var j := FirstShared(gpus[i].jobs, b.remaining);
    var b' := if j != "" then Bind(b, i, j, owners) else b;
    forall x | x in b'.remaining ensures x in b.remaining {
      if j != "" {
        RemainsSubset(b.remaining, j, x);
      }
    }
    forall k, x | 0 <= k < i + 1 && Unexplained(gpus[k], b'.out[k].0) && CgroupSays(gpus[k], x) ensures x !in b'.remaining {
      if k == i {
        FirstSharedServes(gpus[i].jobs, b.remaining, x);
      }
    }
  }

  /** The second phase keeps that, and leaves no allocation over whose owner runs
      a process on an unbound card. */
  ghost predicate OwnersServed(gpus: seq<Card>, owners: Owners, n: nat, b: Binding)
    requires n <= |gpus| == |b.out|
  {
    forall i, j :: 0 <= i < n && b.out[i].0 == "" && OwnerSays(gpus[i], owners, j) ==> j !in b.remaining
  }

  ghost predicate Explained(gpus: seq<Card>, owners: Owners, b: Binding)
    requires |gpus| == |b.out|
  {
    forall k :: 0 <= k < |gpus| && b.out[k].0 != "" ==>
      CgroupSays(gpus[k], b.out[k].0) || OwnerSays(gpus[k], owners, b.out[k].0)
  }

  /** Bound cards stay bound, and only what remained is bound anew. */
  ghost predicate Extends(before: Binding, after: Binding) {
    && |before.out| == |after.out|
    && (forall k :: 0 <= k < |before.out| ==>
          after.out[k] == before.out[k] || (before.out[k].0 == "" && after.out[k].0 in before.remaining))
    && (forall j :: j in after.remaining ==> j in before.remaining)
  }

  lemma OwnerStepServes(gpus: seq<Card>, owners: Owners, i: nat, b: Binding)
    requires i < |gpus| == |b.out| && "" !in b.remaining
    requires OwnersServed(gpus, owners, i, b) && Explained(gpus, owners, b)
    ensures var j := FirstOwned(b.remaining, owners, gpus[i].users);
      var skip := b.out[i].0 != "" || gpus[i].users == [];
      var b' := if !skip && j != "" then Bind(b, i, j, owners) else b;
      OwnersServed(gpus, owners, i + 1, b') && Explained(gpus, owners, b') && Extends(b, b') && "" !in b'.remaining
  {
    hide FirstOwned, RemoveFirst;
    var j := FirstOwned(b.remaining, owners, gpus[i].users);
    var skip := b.out[i].0 != "" || gpus[i].users == [];
    var b' := if !skip && j != "" then Bind(b, i, j, owners) else b;
    forall x | x in b'.remaining ensures x in b.remaining {
      if b' != b {
        RemainsSubset(b.remaining, j, x);
      }
    }
    forall k, x | 0 <= k < i + 1 && b'.out[k].0 == "" && OwnerSays(gpus[k], owners, x) ensures x !in b'.remaining {
      if k == i {
        FirstOwnedServes(b.remaining, owners, gpus[i].users, x);
      }
    }
  }

  lemma ExtendsFurther(a: Binding, b: Binding, c: Binding)
    requires Extends(a, b) && Extends(b, c)
    ensures Extends(a, c)
  {
  }

  lemma {:induction false} ByOwnerServes(gpus: seq<Card>, owners: Owners, i: nat, b: Binding)
    requires i <= |gpus| == |b.out| && "" !in b.remaining
    requires OwnersServed(gpus, owners, i, b) && Explained(gpus, owners, b)
    ensures var r := ByOwner(gpus, owners, i, b);
      && |r.out| == |gpus| && OwnersServed(gpus, owners, |gpus|, r) && Explained(gpus, owners, r)
      && Extends(b, r)
    decreases |gpus| - i
  {
    if i < |gpus| {
      var j := FirstOwned(b.remaining, owners, gpus[i].users);
      var skip := b.out[i].0 != "" || gpus[i].users == [];
      var b' := if !skip && j != "" then Bind(b, i, j, owners) else b;
      OwnerStepServes(gpus, owners, i, b);
      ByOwnerServes(gpus, owners, i + 1, b');
      ExtendsFurther(b, b', ByOwner(gpus, owners, i + 1, b'));
    }
  }

  /** The last phase binds cards without processes only, to what remained. */
  lemma {:induction false} ByHintExtends(gpus: seq<Card>, hint: Hint, owners: Owners, out: seq<(Jid, User)>, todo: seq<Jid>)
    requires |out| == |gpus|
    ensures var r := ByHint(gpus, hint, owners, out, todo);
      |r| == |gpus| && forall k :: 0 <= k < |gpus| ==>
        r[k] == out[k] || (out[k].0 == "" && gpus[k].users == [] && r[k].0 in todo)
    decreases |todo|
  {
    hide FirstPreferred, FirstFree;
    if todo != [] {
      var t := Target(gpus, hint, out, todo[0]);
      ByHintExtends(gpus, hint, owners, if t < |gpus| then out[t := (todo[0], OwnerOf(owners, todo[0]))] else out, todo[1..]);
      assert forall j :: j in todo[1..] ==> j in todo;
    }
  }

  /** All copies of an allocation are bound once none of it remains. */
  lemma AllCopiesBound(hint: Hint, gpus: seq<Card>, owners: Owners, b: Binding, j: Jid)
    requires Sound(hint, gpus, owners, b) && j !in b.remaining && j != ""
    ensures Copies(b.out, j) == multiset(Jobs(hint))[j]
  {
    BoundCounts(b.out, j);
    assert multiset(b.remaining)[j] == 0;
    assert (Bound(b.out) + multiset(b.remaining))[j] == Bound(b.out)[j];
  }

  lemma {:induction false} SameCopies(a: seq<(Jid, User)>, b: seq<(Jid, User)>, j: Jid)
    requires |a| == |b| && forall k :: 0 <= k < |a| ==> (a[k].0 == j <==> b[k].0 == j)
    ensures Copies(a, j) == Copies(b, j)
    decreases |a|
  {
    if a != [] {
      SameCopies(a[1..], b[1..], j);
      assert Names(a) == [a[0].0] + Names(a[1..]) && Names(b) == [b[0].0] + Names(b[1..]);
    }
  }

  /** The states after the phases. */
  lemma PhasesServe(hint: Hint, owners: Owners, gpus: seq<Card>)
    requires NonEmptyIds(hint)
    ensures var b1, b2, out := AfterCgroup(hint, owners, gpus), AfterOwner(hint, owners, gpus), Reconciled(hint, owners, gpus);
      && CgroupsServed(gpus, |gpus|, b1) && CgroupsOnly(gpus, b1) && Sound(hint, gpus, owners, b1)
      && OwnersServed(gpus, owners, |gpus|, b2) && Explained(gpus, owners, b2) && Sound(hint, gpus, owners, b2)
      && Extends(b1, b2) && |out| == |gpus|
      && forall k :: 0 <= k < |gpus| ==>
           out[k] == b2.out[k] || (b2.out[k].0 == "" && gpus[k].users == [] && out[k].0 in b2.remaining)
  {
    hide ByCgroup, ByOwner, ByHint, Bound;
    var b0 := Start(hint, gpus);
    BoundOfUnbound(|gpus|);
    assert "" !in b0.remaining;
    ByCgroupKeeps(hint, gpus, owners, 0, b0);
    ByCgroupServes(gpus, owners, 0, b0);
    var b1 := AfterCgroup(hint, owners, gpus);
    ByOwnerKeeps(hint, gpus, owners, 0, b1);
    ByOwnerServes(gpus, owners, 0, b1);
    var b2 := AfterOwner(hint, owners, gpus);
    ByHintExtends(gpus, hint, owners, b2.out, b2.remaining);
  }

  /** If a card is unbound, or bound to a job that its cgroups do not name, every
      allocated job that they do name has all its copies on cards whose cgroups
      name it. */
  lemma CgroupsComeFirst(hint: Hint, owners: Owners, gpus: seq<Card>, i: nat, j: Jid)
    requires NonEmptyIds(hint) && i < |gpus| && j in Jobs(hint)
    requires var out := Reconciled(hint, owners, gpus);
      i < |out| && Unexplained(gpus[i], out[i].0) && CgroupSays(gpus[i], j)
    ensures var out := Reconciled(hint, owners, gpus);
      && |out| == |gpus| && Copies(out, j) == multiset(Jobs(hint))[j]
      && forall k :: 0 <= k < |gpus| && out[k].0 == j ==> CgroupSays(gpus[k], j)
  {
    hide AfterCgroup, AfterOwner, Reconciled, Sound;
    var b1, b2, out := AfterCgroup(hint, owners, gpus), AfterOwner(hint, owners, gpus), Reconciled(hint, owners, gpus);
    PhasesServe(hint, owners, gpus);
    assert Unexplained(gpus[i], b1.out[i].0);
    JobsAreNamed(hint, j);
    AllCopiesBound(hint, gpus, owners, b1, j);
    SameCopies(b1.out, out, j);
  }

  /** If a card with processes is unbound, every allocated job whose owner runs
      one of them has all its copies on cards that name it in their cgroups or
      run a process of its owner. */
  lemma OwnersComeNext(hint: Hint, owners: Owners, gpus: seq<Card>, i: nat, j: Jid)
    requires NonEmptyIds(hint) && i < |gpus| && j in Jobs(hint)
    requires var out := Reconciled(hint, owners, gpus);
      i < |out| && out[i].0 == "" && OwnerSays(gpus[i], owners, j)
    ensures var out := Reconciled(hint, owners, gpus);
      && |out| == |gpus| && Copies(out, j) == multiset(Jobs(hint))[j]
      && forall k :: 0 <= k < |gpus| && out[k].0 == j ==> CgroupSays(gpus[k], j) || OwnerSays(gpus[k], owners, j)
  {
    hide AfterCgroup, AfterOwner, Reconciled, Sound;
    var b2, out := AfterOwner(hint, owners, gpus), Reconciled(hint, owners, gpus);
    PhasesServe(hint, owners, gpus);
    assert b2.out[i].0 == "";
    JobsAreNamed(hint, j);
    AllCopiesBound(hint, gpus, owners, b2, j);
    SameCopies(b2.out, out, j);
  }

  lemma JobsAreNamed(hint: Hint, j: Jid)
    requires NonEmptyIds(hint) && j in Jobs(hint)
    ensures j != ""
  {
  }

  // ---------------------------------------------------------------------------
  // The hint decides last, but where it can
  // ---------------------------------------------------------------------------

  /** No card that the hint gives to the job is left without processes and unbound. */
  ghost predicate HintedTaken(hint: Hint, gpus: seq<Card>, out: seq<(Jid, User)>, j: Jid)
    requires |gpus| == |out|
  {
    forall m :: 0 <= m < |gpus| && gpus[m].users == [] && Hinted(hint, gpus[m].key, j) ==> out[m].0 != ""
  }

  lemma {:induction false} ByHintPrefers(gpus: seq<Card>, hint: Hint, owners: Owners, out: seq<(Jid, User)>, todo: seq<Jid>, k: nat)
    requires |out| == |gpus| && k < |gpus| && "" !in todo
    ensures var r := ByHint(gpus, hint, owners, out, todo);
      |r| == |gpus| && (out[k].0 == "" && r[k].0 != "" && !Hinted(hint, gpus[k].key, r[k].0) ==>
        HintedTaken(hint, gpus, r, r[k].0))
    decreases |todo|
  {
    hide Hinted;
    if todo != [] {
      var j, t := todo[0], Target(gpus, hint, out, todo[0]);
      var next := if t < |gpus| then out[t := (j, OwnerOf(owners, j))] else out;
      ByHintPrefers(gpus, hint, owners, next, todo[1..], k);
      ByHintExtends(gpus, hint, owners, next, todo[1..]);
      if t == k && out[k].0 == "" && !Hinted(hint, gpus[k].key, j) {
        assert HintedTaken(hint, gpus, out, j) by {
          assert forall m :: 0 <= m < |gpus| && Free(gpus, out, m) ==> !Hinted(hint, gpus[m].key, j);
        }
      }
    }
  }

  /** A card without processes that was bound to a job neither its cgroups nor
      the hint name: every such card that the hint does give to the job is bound. */
  lemma HintsAreFollowed(hint: Hint, owners: Owners, gpus: seq<Card>, i: nat)
    requires NonEmptyIds(hint) && i < |gpus| && gpus[i].users == []
    requires var out := Reconciled(hint, owners, gpus);
      i < |out| && out[i].0 != "" && !CgroupSays(gpus[i], out[i].0) && !Hinted(hint, gpus[i].key, out[i].0)
    ensures var out := Reconciled(hint, owners, gpus);
      |out| == |gpus| && HintedTaken(hint, gpus, out, out[i].0)
  {
    hide AfterCgroup, AfterOwner, Sound, ByHint, Hinted;
    var b1, b2 := AfterCgroup(hint, owners, gpus), AfterOwner(hint, owners, gpus);
    PhasesServe(hint, owners, gpus);
    forall j | j in b2.remaining ensures j != "" {
      RemainsNamed(hint, gpus, owners, b2, j);
    }
    ByHintPrefers(gpus, hint, owners, b2.out, b2.remaining, i);
    assert b2.out[i].0 == "";
  }

  lemma RemainsNamed(hint: Hint, gpus: seq<Card>, owners: Owners, b: Binding, j: Jid)
    requires NonEmptyIds(hint) && Sound(hint, gpus, owners, b) && j in b.remaining
    ensures j != ""
  {
    assert j in multiset(b.remaining);
    assert j in multiset(Jobs(hint));
    assert j in Jobs(hint);
  }
}
