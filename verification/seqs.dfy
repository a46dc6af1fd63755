/** Sequence helpers shared by the loops that append at most one item per input. */
module Seqs {
  import opened Wrappers

  /** The present values of `s`, in order: what `if x: out.append(x)` leaves behind. */
  function Somes<T>(s: seq<Option<T>>): seq<T>
    decreases |s|
  {
    if |s| == 0 then []
    else
      var last := s[|s| - 1];
      Somes(s[..|s| - 1]) + (if last.Some? then [last.value] else [])
  }

  lemma {:induction false} SomesAppend<T>(a: seq<Option<T>>, b: seq<Option<T>>)
    ensures Somes(a + b) == Somes(a) + Somes(b)
    decreases |b|
  {
    if |b| == 0 {
      assert a + b == a;
    } else {
      var b' := b[..|b| - 1];
      assert (a + b)[..|a + b| - 1] == a + b';
      assert (a + b)[|a + b| - 1] == b[|b| - 1];
      SomesAppend(a, b');
    }
  }

  lemma SomesSingle<T>(x: Option<T>)
    ensures Somes([x]) == if x.Some? then [x.value] else []
  {
    assert [x][..0] == [];
  }

  /** Splitting at position `i`: what comes after an item is kept whatever that item gives. */
  lemma {:induction false} SomesSplit<T>(s: seq<Option<T>>, i: nat)
    requires i < |s|
    ensures Somes(s) == Somes(s[..i]) + (if s[i].Some? then [s[i].value] else []) + Somes(s[i + 1..])
  {
    var a, x, b := s[..i], s[i], s[i + 1..];
    assert s == a + [x] + b;
    SomesAppend(a + [x], b);
    SomesAppend(a, [x]);
    SomesSingle(x);
  }

  /** A missing item can be dropped from anywhere without changing the values. */
  lemma {:induction false} SomesSkipNone<T>(a: seq<Option<T>>, b: seq<Option<T>>)
    ensures Somes(a + [None] + b) == Somes(a + b)
  {
    SomesAppend(a + [None], b);
    SomesAppend(a, [None]);
    SomesSingle<T>(None);
    SomesAppend(a, b);
  }

  /** At most one value per item; no values when every item is missing. */
  lemma SomesLength<T>(s: seq<Option<T>>)
    ensures |Somes(s)| <= |s|
    ensures (forall i :: 0 <= i < |s| ==> s[i].None?) ==> Somes(s) == []
    decreases |s|
  {
    if |s| > 0 {
      SomesLength(s[..|s| - 1]);
    }
  }

  /** Every present item's value is kept. */
  lemma {:induction false} SomesHas<T>(s: seq<Option<T>>, i: nat)
    requires i < |s| && s[i].Some?
    ensures s[i].value in Somes(s)
  {
    SomesSplit(s, i);
  }

  /** A value among `Somes(s)` comes from some present item. */
  lemma {:induction false} SomesMember<T>(s: seq<Option<T>>, x: T) returns (i: nat)
    requires x in Somes(s)
    ensures i < |s| && s[i] == Some(x)
    decreases |s|
  {
    var front := s[..|s| - 1];
    if x in Somes(front) {
      i := SomesMember(front, x);
    } else {
      i := |s| - 1;
    }
  }

  /**
   * The loop `for x in xs: parts.append(...)` whose body may raise: the values of the
   * items that add one, in order, or the first exception an item raises.
   */
  function Gather<T>(s: seq<Result<Option<T>>>): Result<seq<T>>
    decreases |s|
  {
    if |s| == 0 then Success([])
    else
      var front :- Gather(s[..|s| - 1]);
      var last :- s[|s| - 1];
      Success(front + (if last.Some? then [last.value] else []))
  }

  /** Gathering a concatenation: the first part's exception, else the second's, else both values. */
  lemma {:induction false} GatherAppend<T>(a: seq<Result<Option<T>>>, b: seq<Result<Option<T>>>)
    ensures Gather(a + b) ==
              if Gather(a).Failure? then Gather(a)
              else if Gather(b).Failure? then Failure(Gather(b).error)
              else Success(Gather(a).value + Gather(b).value)
    decreases |b|
  {
    if |b| == 0 {
      assert a + b == a;
      assert Gather(b) == Success([]);
      if Gather(a).Success? {
        assert Gather(a).value + [] == Gather(a).value;
      }
    } else {
      var b' := b[..|b| - 1];
      assert (a + b)[..|a + b| - 1] == a + b';
      assert (a + b)[|a + b| - 1] == b[|b| - 1];
      GatherAppend(a, b');
      var last := b[|b| - 1];
      if Gather(a).Success? && Gather(b').Success? && last.Success? {
        var g := if last.value.Some? then [last.value.value] else [];
        assert Gather(b) == Success(Gather(b').value + g);
        assert Gather(a + b) == Success(Gather(a).value + Gather(b').value + g);
        assert Gather(a).value + Gather(b).value == Gather(a).value + Gather(b').value + g;
      } else if Gather(a).Failure? {
        assert Gather(a + b) == Gather(a);
      } else if Gather(b').Failure? {
        assert Gather(b) == Failure(Gather(b').error);
        assert Gather(a + b) == Failure(Gather(b').error);
      } else {
        assert Gather(b) == Failure(last.error);
        assert Gather(a + b) == Failure(last.error);
      }
    }
  }

  lemma GatherSingle<T>(x: Result<Option<T>>)
    ensures Gather([x]) == if x.Failure? then Failure(x.error)
                           else Success(if x.value.Some? then [x.value.value] else [])
  {
    assert [x][..|[x]| - 1] == [] && [x][|[x]| - 1] == x;
    assert Gather<T>([]) == Success([]);
    if x.Success? {
      var g := if x.value.Some? then [x.value.value] else [];
      assert Gather([x]) == Success([] + g);
      assert [] + g == g;
    }
  }

  /** The loop raises exactly when an item raises, and then with the first such item's exception. */
  lemma {:induction false} GatherFailure<T>(s: seq<Result<Option<T>>>)
    ensures Gather(s).Failure? <==> exists i :: 0 <= i < |s| && s[i].Failure?
    ensures Gather(s).Failure? ==>
              exists i :: 0 <= i < |s| && s[i] == Failure(Gather(s).error) &&
                forall j :: 0 <= j < i ==> s[j].Success?
    decreases |s|
  {
    if |s| > 0 {
      var front := s[..|s| - 1];
      GatherFailure(front);
      assert forall j :: 0 <= j < |front| ==> front[j] == s[j];
      if Gather(front).Failure? {
        var i :| 0 <= i < |front| && front[i] == Failure(Gather(front).error) &&
                 forall j :: 0 <= j < i ==> front[j].Success?;
        assert s[i] == Failure(Gather(s).error);
      }
    }
  }

  /** An item that raises nothing and adds nothing can be dropped from anywhere. */
  lemma {:induction false} GatherSkipNone<T>(a: seq<Result<Option<T>>>, b: seq<Result<Option<T>>>)
    ensures Gather(a + [Success(None)] + b) == Gather(a + b)
  {
    GatherAppend(a + [Success(None)], b);
    GatherAppend(a, [Success(None)]);
    GatherSingle<T>(Success(None));
    if Gather(a).Success? {
      assert Gather(a).value + [] == Gather(a).value;
    }
    assert Gather(a + [Success(None)]) == Gather(a);
    GatherAppend(a, b);
  }

  /** An item that adds `v` puts `v` between the values of the items around it. */
  lemma {:induction false} GatherKeep<T>(a: seq<Result<Option<T>>>, v: T, b: seq<Result<Option<T>>>)
    requires Gather(a).Success? && Gather(b).Success?
    ensures Gather(a + [Success(Some(v))] + b) == Success(Gather(a).value + [v] + Gather(b).value)
  {
    GatherAppend(a + [Success(Some(v))], b);
    GatherAppend(a, [Success(Some(v))]);
    GatherSingle(Success(Some(v)));
  }

  /** `[f(x) for x in s]`. */
  function Map<A, B>(f: A -> B, s: seq<A>): (r: seq<B>)
    ensures |r| == |s| && forall i :: 0 <= i < |s| ==> r[i] == f(s[i])
  {
    seq(|s|, i requires 0 <= i < |s| => f(s[i]))
  }

  lemma MapAppend<A, B>(f: A -> B, a: seq<A>, b: seq<A>)
    ensures Map(f, a + b) == Map(f, a) + Map(f, b)
  {
    var l, r := Map(f, a + b), Map(f, a) + Map(f, b);
    forall i | 0 <= i < |l| ensures l[i] == r[i] {
      if i < |a| { assert (a + b)[i] == a[i]; } else { assert (a + b)[i] == b[i - |a|]; }
    }
  }
}
