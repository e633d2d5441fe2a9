/** Sums of a real-valued function over a finite set, in any order. */
module Sums {

  ghost function Sum<K(!new)>(s: set<K>, f: K -> real): real {
    if s == {} then 0.0 else var x :| x in s; f(x) + Sum(s - {x}, f)
  }

  /** Any element may be taken out first. */
  lemma {:induction false} SumTake<K(!new)>(s: set<K>, f: K -> real, x: K)
    requires x in s
    ensures Sum(s, f) == f(x) + Sum(s - {x}, f)
    decreases |s|
  {
    var y :| y in s && Sum(s, f) == f(y) + Sum(s - {y}, f);
    if y != x {
      SumTake(s - {y}, f, x);
      SumTake(s - {x}, f, y);
      assert s - {y} - {x} == s - {x} - {y};
    }
  }

  lemma {:induction false} SumSame<K(!new)>(s: set<K>, f: K -> real, g: K -> real)
    requires forall x :: x in s ==> f(x) == g(x)
    ensures Sum(s, f) == Sum(s, g)
    decreases |s|
  {
    if s != {} {
      var x :| x in s;
      SumTake(s, f, x);
      SumTake(s, g, x);
      SumSame(s - {x}, f, g);
    }
  }

  /** Changing the function at one point. */
  lemma SumBump<K(!new)>(s: set<K>, f: K -> real, g: K -> real, x: K, c: real)
    requires x in s && g(x) == f(x) + c && forall y :: y in s && y != x ==> g(y) == f(y)
    ensures Sum(s, g) == Sum(s, f) + c
  {
    SumTake(s, f, x);
    SumTake(s, g, x);
    SumSame(s - {x}, f, g);
  }

  /** Elements that contribute nothing may be added. */
  lemma {:induction false} SumGrow<K(!new)>(s: set<K>, t: set<K>, f: K -> real)
    requires s <= t && forall x :: x in t - s ==> f(x) == 0.0
    ensures Sum(s, f) == Sum(t, f)
    decreases |t - s|
  {
    if t - s == {} {
      assert s == t;
    } else {
      var x :| x in t - s;
      SumTake(t, f, x);
      assert t - {x} - s == t - s - {x};
      SumGrow(s, t - {x}, f);
    }
  }

  lemma {:induction false} SumZero<K(!new)>(s: set<K>, f: K -> real)
    requires forall x :: x in s ==> f(x) == 0.0
    ensures Sum(s, f) == 0.0
    decreases |s|
  {
    if s != {} {
      var x :| x in s;
      SumTake(s, f, x);
      SumZero(s - {x}, f);
    }
  }

  lemma {:induction false} SumLe<K(!new)>(s: set<K>, f: K -> real, g: K -> real)
    requires forall x :: x in s ==> f(x) <= g(x)
    ensures Sum(s, f) <= Sum(s, g)
    decreases |s|
  {
    if s != {} {
      var x :| x in s;
      SumTake(s, f, x);
      SumTake(s, g, x);
      SumLe(s - {x}, f, g);
    }
  }

  lemma {:induction false} SumAdd<K(!new)>(s: set<K>, f: K -> real, g: K -> real, h: K -> real)
    requires forall x :: x in s ==> h(x) == f(x) + g(x)
    ensures Sum(s, h) == Sum(s, f) + Sum(s, g)
    decreases |s|
  {
    if s != {} {
      var x :| x in s;
      SumTake(s, f, x);
      SumTake(s, g, x);
      SumTake(s, h, x);
      SumAdd(s - {x}, f, g, h);
    }
  }

  /** Rows first or columns first. */
  lemma {:induction false} SumExchange<A(!new), B(!new)>(s: set<A>, t: set<B>, row: A -> B -> real, column: B -> A -> real,
                                                         rows: A -> real, columns: B -> real)
    requires forall a, b :: row(a)(b) == column(b)(a)
    requires forall a | a in s :: rows(a) == Sum(t, row(a))
    requires forall b | b in t :: columns(b) == Sum(s, column(b))
    ensures Sum(s, rows) == Sum(t, columns)
    decreases |s|
  {
    if s == {} {
      forall b | b in t ensures columns(b) == 0.0 {
        SumZero(s, column(b));
      }
      SumZero(t, columns);
    } else {
      var x :| x in s;
      SumTake(s, rows, x);
      var rest := (b: B) => Sum(s - {x}, column(b));
      forall b | b in t ensures columns(b) == row(x)(b) + rest(b) {
        SumTake(s, column(b), x);
      }
      SumExchange(s - {x}, t, row, column, rows, rest);
      SumAdd(t, row(x), rest, columns);
    }
  }
}
