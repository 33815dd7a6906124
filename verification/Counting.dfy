/** Finite counting: words over an alphabet and images under injections. */
module Counting {

  function Power(b: nat, n: nat): nat {
    if n == 0 then 1 else b * Power(b, n - 1)
  }

  lemma {:induction false} PowerMonotone(a: nat, b: nat, n: nat)
    requires a <= b
    ensures Power(a, n) <= Power(b, n)
  {
    if n > 0 {
      PowerMonotone(a, b, n - 1);
      TimesMonotone(a, b, Power(a, n - 1), Power(b, n - 1));
    }
  }

  lemma {:induction false} TimesMonotone(a: nat, b: nat, x: nat, y: nat)
    requires a <= b && x <= y
    ensures a * x <= b * y
  {
    assert a * x <= a * y;
    assert a * y <= b * y;
  }

  lemma {:induction false} PowerProduct(a: nat, b: nat, n: nat)
    ensures Power(a, n) * Power(b, n) == Power(a * b, n)
  {
    if n > 0 {
      PowerProduct(a, b, n - 1);
      Interchange(a, Power(a, n - 1), b, Power(b, n - 1));
    }
  }

  lemma {:induction false} Interchange(a: nat, x: nat, b: nat, y: nat)
    ensures (a * x) * (b * y) == (a * b) * (x * y)
  {
    assert (a * x) * (b * y) == a * (x * (b * y));
    assert x * (b * y) == b * (x * y);
    assert a * (b * (x * y)) == (a * b) * (x * y);
  }

  lemma {:induction false} PowerPositive(b: nat, n: nat)
    requires b > 0
    ensures Power(b, n) > 0
  {
    if n > 0 {
      PowerPositive(b, n - 1);
    }
  }

  /** The words of length `n` over the alphabet `s`. */
  ghost function Words<T(!new)>(s: set<T>, n: nat): set<seq<T>> {
    if n == 0 then {[]} else Prefixed(s, Words(s, n - 1))
  }

  ghost function Prefixed<T(!new)>(s: set<T>, ts: set<seq<T>>): set<seq<T>> {
    set x, t | x in s && t in ts :: [x] + t
  }

  lemma {:induction false} WordsMember<T(!new)>(s: set<T>, w: seq<T>, n: nat)
    ensures w in Words(s, n) <==> |w| == n && forall i :: 0 <= i < |w| ==> w[i] in s
  {
    if n > 0 {
      if |w| > 0 {
        assert w == [w[0]] + w[1..];
        WordsMember(s, w[1..], n - 1);
      }
      forall x, t | x in s && t in Words(s, n - 1) && w == [x] + t
        ensures |w| == n && forall i :: 0 <= i < |w| ==> w[i] in s
      {
        WordsMember(s, t, n - 1);
      }
    }
  }

  lemma {:induction false} PrefixedSize<T(!new)>(s: set<T>, ts: set<seq<T>>)
    ensures |Prefixed(s, ts)| == |s| * |ts|
  {
    hide *;
    if s == {} {
      PrefixedEmpty(ts);
    } else {
      var x :| x in s;
      PrefixedSize(s - {x}, ts);
      OnePrefixSize(x, ts);
      PrefixedSplit(s, x, ts);
      UnionSize(Prefixed({x}, ts), Prefixed(s - {x}, ts));
      OneMore(|s - {x}|, |ts|);
    }
  }

  lemma {:induction false} PrefixedEmpty<T(!new)>(ts: set<seq<T>>)
    ensures Prefixed({}, ts) == {}
  {
  }

  lemma {:induction false} UnionSize<T>(a: set<T>, b: set<T>)
    requires a !! b
    ensures |a + b| == |a| + |b|
  {
  }

  lemma {:induction false} OneMore(n: nat, k: nat)
    ensures k + n * k == (n + 1) * k
  {
  }

  lemma {:induction false} PrefixedSplit<T(!new)>(s: set<T>, x: T, ts: set<seq<T>>)
    requires x in s
    ensures Prefixed(s, ts) == Prefixed({x}, ts) + Prefixed(s - {x}, ts)
    ensures Prefixed({x}, ts) !! Prefixed(s - {x}, ts)
  {
    forall w | w in Prefixed(s, ts)
      ensures w in Prefixed({x}, ts) + Prefixed(s - {x}, ts)
    {
      var y, t :| y in s && t in ts && w == [y] + t;
      if y == x {
        assert w in Prefixed({x}, ts);
      } else {
        assert y in s - {x};
      }
    }
    forall w | w in Prefixed({x}, ts)
      ensures w in Prefixed(s, ts) && w !in Prefixed(s - {x}, ts)
    {
      assert w[0] == x;
    }
    forall w | w in Prefixed(s - {x}, ts)
      ensures w in Prefixed(s, ts)
    {
    }
  }

  function Prefixer<T>(x: T): seq<T> -> seq<T> {
    t => [x] + t
  }

  function Tail<T>(): seq<T> -> seq<T> {
    w => if |w| > 0 then w[1..] else []
  }

  lemma {:induction false} TailOfPrefixed<T>(x: T, t: seq<T>)
    ensures Tail()(Prefixer(x)(t)) == t
  {
  }

  lemma {:induction false} OnePrefixMembers<T(!new)>(x: T, ts: set<seq<T>>)
    ensures forall t :: t in ts ==> Prefixer(x)(t) in Prefixed({x}, ts)
    ensures forall w :: w in Prefixed({x}, ts) ==> Tail()(w) in ts && Prefixer(x)(Tail()(w)) == w
  {
    forall w | w in Prefixed({x}, ts)
      ensures Tail()(w) in ts && Prefixer(x)(Tail()(w)) == w
    {
      var y, t :| y in {x} && t in ts && w == [y] + t;
      TailOfPrefixed(x, t);
    }
    forall t | t in ts
      ensures Prefixer(x)(t) in Prefixed({x}, ts)
    {
      assert x in {x};
    }
  }

  lemma {:induction false} OnePrefixSize<T(!new)>(x: T, ts: set<seq<T>>)
    ensures |Prefixed({x}, ts)| == |ts|
  {
    OnePrefixMembers(x, ts);
    hide *;
    forall t, u | t in ts && u in ts && Prefixer(x)(t) == Prefixer(x)(u)
      ensures t == u
    {
      TailOfPrefixed(x, t);
      TailOfPrefixed(x, u);
    }
    InjectionSize(ts, Prefixed({x}, ts), Prefixer(x));
    InjectionSize(Prefixed({x}, ts), ts, Tail());
  }

  lemma {:induction false} WordsSize<T(!new)>(s: set<T>, n: nat)
    ensures |Words(s, n)| == Power(|s|, n)
  {
    if n > 0 {
      WordsSize(s, n - 1);
      PrefixedSize(s, Words(s, n - 1));
    }
  }

  /** A set that maps injectively into `t` is no larger than `t`. */
  lemma {:induction false} InjectionSize<A(!new), B>(s: set<A>, t: set<B>, f: A -> B)
    requires forall x :: x in s ==> f(x) in t
    requires forall x, y :: x in s && y in s && f(x) == f(y) ==> x == y
    ensures |s| <= |t|
  {
    if s != {} {
      var x :| x in s;
      InjectionSize(s - {x}, t - {f(x)}, f);
    }
  }
}
