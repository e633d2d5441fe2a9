/** Small vocabulary shared by the other modules. */
module Common {

  datatype Option<+T> = None | Some(value: T)

  /** `q` lists the elements of `s` once each, in an order of the caller's choosing:
      what iterating over a Python set or building a list from one gives. */
  ghost predicate Lists<T>(q: seq<T>, s: set<T>) {
    && (forall x | x in q :: x in s)
    && (forall x | x in s :: x in q)
    && (forall i, j :: 0 <= i < j < |q| ==> q[i] != q[j])
  }

  method AnyOf<T>(s: set<T>) returns (x: T)
    requires s != {}
    ensures x in s
  {
    x :| x in s;
  }

  method ListSet<T(==)>(s: set<T>) returns (q: seq<T>)
    ensures Lists(q, s)
  {
    q := [];
    var rest := s;
    while rest != {}
      invariant Lists(q, s - rest) && rest <= s
      decreases rest
    {
      var x :| x in rest;
      q := q + [x];
      rest := rest - {x};
    }
    assert s - rest == s;
  }

  /** The sum of `f` over a sequence. */
  function Total<T>(s: seq<T>, f: T -> nat): nat {
    if s == [] then 0 else f(s[0]) + Total(s[1..], f)
  }

  lemma {:induction false} TotalConcat<T>(s: seq<T>, t: seq<T>, f: T -> nat)
    ensures Total(s + t, f) == Total(s, f) + Total(t, f)
  {
    if s == [] {
      assert s + t == t;
    } else {
      assert (s + t)[1..] == s[1..] + t;
      TotalConcat(s[1..], t, f);
    }
  }

  lemma TotalSnoc<T>(s: seq<T>, i: nat, f: T -> nat)
    requires i < |s|
    ensures Total(s[..i + 1], f) == Total(s[..i], f) + f(s[i])
  {
    assert s[..i + 1] == s[..i] + [s[i]];
    TotalConcat(s[..i], [s[i]], f);
    assert [s[i]][1..] == [];
  }

  lemma {:induction false} TotalSame<T>(s: seq<T>, f: T -> nat, g: T -> nat)
    requires forall x :: x in s ==> f(x) == g(x)
    ensures Total(s, f) == Total(s, g)
  {
    if s != [] {
      assert s[0] in s;
      TotalSame(s[1..], f, g);
    }
  }

  lemma {:induction false} TotalBalance<T>(s: seq<T>, f: T -> nat, g: T -> nat, h: T -> nat, k: T -> nat, l: T -> nat)
    requires forall x :: x in s ==> f(x) + g(x) + h(x) == k(x) + l(x)
    ensures Total(s, f) + Total(s, g) + Total(s, h) == Total(s, k) + Total(s, l)
  {
    if s != [] {
      assert s[0] in s;
      TotalBalance(s[1..], f, g, h, k, l);
    }
  }

  lemma TakeOut<T>(s: seq<T>, i: nat)
    requires i < |s|
    ensures multiset(s) == multiset(s[..i] + s[i + 1..]) + multiset{s[i]}
  {
    var a, b := s[..i], s[i + 1..];
    assert s == a + [s[i]] + b;
    assert multiset(s) == multiset(a) + multiset{s[i]} + multiset(b);
    assert multiset(a + b) == multiset(a) + multiset(b);
  }

  lemma TotalTakeOut<T>(s: seq<T>, i: nat, f: T -> nat)
    requires i < |s|
    ensures Total(s, f) == f(s[i]) + Total(s[..i] + s[i + 1..], f)
  {
    var a, b := s[..i], s[i + 1..];
    var c := [s[i]] + b;
    assert s == a + c;
    assert Total(c, f) == f(s[i]) + Total(b, f) by {
      assert c[0] == s[i] && c[1..] == b;
    }
    hide Total;
    TotalConcat(a, c, f);
    TotalConcat(a, b, f);
  }

  lemma RestsPermute<T>(s: seq<T>, t: seq<T>, i: nat)
    requires s != [] && i < |t| && t[i] == s[0] && multiset(s) == multiset(t)
    ensures multiset(s[1..]) == multiset(t[..i] + t[i + 1..])
  {
    assert multiset(s) == multiset(s[1..]) + multiset{s[0]} by {
      assert s == [s[0]] + s[1..];
    }
    TakeOut(t, i);
    CancelOne(multiset(s[1..]), multiset(t[..i] + t[i + 1..]), s[0]);
  }

  lemma CountConcat<T>(a: seq<T>, b: seq<T>, x: T)
    ensures multiset(a + b)[x] == multiset(a)[x] + multiset(b)[x]
  {
    assert multiset(a + b) == multiset(a) + multiset(b);
  }

  lemma CancelOne<T>(a: multiset<T>, b: multiset<T>, x: T)
    requires a + multiset{x} == b + multiset{x}
    ensures a == b
  {
    assert a == (a + multiset{x}) - multiset{x};
    assert b == (b + multiset{x}) - multiset{x};
  }

  /** A sum does not depend on the order. */
  lemma {:induction false} TotalPermutes<T>(s: seq<T>, t: seq<T>, f: T -> nat)
    requires multiset(s) == multiset(t)
    ensures Total(s, f) == Total(t, f)
    decreases |s|
  {
    if s == [] {
      assert |multiset(t)| == 0;
    } else {
      assert s[0] in multiset(s);
      var i :| 0 <= i < |t| && t[i] == s[0];
      RestsPermute(s, t, i);
      TotalPermutes(s[1..], t[..i] + t[i + 1..], f);
      TotalTakeOut(t, i, f);
    }
  }

  /** Two occurrences count twice. */
  lemma TotalOfTwo<T>(s: seq<T>, i: nat, k: nat, f: T -> nat)
    requires i < k < |s|
    ensures Total(s, f) >= f(s[i]) + f(s[k])
  {
    TotalHas(s[..k], i, f);
    assert s == s[..k] + s[k..];
    TotalConcat(s[..k], s[k..], f);
  }

  lemma TotalHas<T>(s: seq<T>, i: nat, f: T -> nat)
    requires i < |s|
    ensures Total(s, f) >= f(s[i])
  {
    assert s == s[..i] + s[i..];
    TotalConcat(s[..i], s[i..], f);
  }

  /** A positive sum has a positive term. */
  lemma {:induction false} TotalPositive<T>(s: seq<T>, f: T -> nat)
    requires Total(s, f) > 0
    ensures exists x :: x in s && f(x) > 0
  {
    if f(s[0]) > 0 {
      assert s[0] in s;
    } else {
      TotalPositive(s[1..], f);
      var x :| x in s[1..] && f(x) > 0;
      assert x in s;
    }
  }

  /** `tuple(dict.fromkeys(s))`: first occurrences, in order. */
  function Dedup<T(==)>(s: seq<T>): (r: seq<T>)
    ensures forall i, j :: 0 <= i < j < |r| ==> r[i] != r[j]
    ensures forall x | x in r :: x in s
    ensures forall x | x in s :: x in r
    decreases |s|
  {
    if s == [] then []
    else
      var r := Dedup(s[..|s| - 1]);
      assert s == s[..|s| - 1] + [s[|s| - 1]];
      if s[|s| - 1] in r then r else r + [s[|s| - 1]]
  }
}
