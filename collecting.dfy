/**
 * The list comprehensions and nested loops of the request handlers: they
 * keep some of the items of a list, or concatenate what each item gives,
 * and an exception raised for any item fails the whole.
 */
module Collecting {
  import opened Values

  /** `[e for x in xs ...]` where each item is dropped (`None`), kept, or raises. */
  function Collect<X, E>(xs: seq<X>, f: X -> Result<Option<E>>): Result<seq<E>>
  {
    if xs == [] then Ok([])
    else
      var n := |xs| - 1;
      var before := Collect(xs[..n], f);
      if before.Err? then before
      else
        var last := f(xs[n]);
        if last.Err? then Err(last.error)
        else if last.value.None? then before
        else Ok(before.value + [last.value.value])
  }

  /** What each item gives, concatenated in order; the first item that raises fails the whole. */
  function Flatten<X, E>(xs: seq<X>, g: X -> Result<seq<E>>): Result<seq<E>>
  {
    if xs == [] then Ok([])
    else
      var n := |xs| - 1;
      var before := Flatten(xs[..n], g);
      if before.Err? then before
      else
        var last := g(xs[n]);
        if last.Err? then Err(last.error) else Ok(before.value + last.value)
  }

  lemma CollectStep<X, E>(xs: seq<X>, i: int, f: X -> Result<Option<E>>)
    requires 0 <= i < |xs|
    ensures Collect(xs[..i + 1], f) ==
            var before := Collect(xs[..i], f);
            if before.Err? then before
            else if f(xs[i]).Err? then Err(f(xs[i]).error)
            else if f(xs[i]).value.None? then before
            else Ok(before.value + [f(xs[i]).value.value])
  {
    assert xs[..i + 1][..i] == xs[..i];
  }

  lemma FlattenStep<X, E>(xs: seq<X>, i: int, g: X -> Result<seq<E>>)
    requires 0 <= i < |xs|
    ensures Flatten(xs[..i + 1], g) ==
            var before := Flatten(xs[..i], g);
            if before.Err? then before
            else if g(xs[i]).Err? then Err(g(xs[i]).error)
            else Ok(before.value + g(xs[i]).value)
  {
    assert xs[..i + 1][..i] == xs[..i];
  }

  /** Collecting fails exactly when some item raises, and then with an error one of them raised. */
  lemma {:induction false} CollectFails<X, E>(xs: seq<X>, f: X -> Result<Option<E>>)
    ensures Collect(xs, f).Err? <==> exists i :: 0 <= i < |xs| && f(xs[i]).Err?
    ensures Collect(xs, f).Err? ==> exists i :: 0 <= i < |xs| && f(xs[i]) == Err(Collect(xs, f).error)
  {
    if xs != [] {
      var n := |xs| - 1;
      CollectFails(xs[..n], f);
      assert forall i :: 0 <= i < n ==> xs[..n][i] == xs[i];
    }
  }

  /** When collecting succeeds, every item succeeded. */
  lemma {:induction false} CollectOk<X, E>(xs: seq<X>, f: X -> Result<Option<E>>)
    requires Collect(xs, f).Ok?
    ensures forall x :: x in xs ==> f(x).Ok?
  {
    if xs != [] {
      var n := |xs| - 1;
      CollectOk(xs[..n], f);
      forall x | x in xs
        ensures f(x).Ok?
      {
        if x != xs[n] {
          var i :| 0 <= i < |xs| && xs[i] == x;
          assert xs[..n][i] == x;
        }
      }
    }
  }

  /** What is collected is exactly what the items keep. */
  lemma {:induction false} CollectMembers<X, E>(xs: seq<X>, f: X -> Result<Option<E>>, e: E)
    requires Collect(xs, f).Ok?
    ensures e in Collect(xs, f).value <==> exists x :: x in xs && f(x) == Ok(Some(e))
  {
    if xs != [] {
      var n := |xs| - 1;
      CollectMembers(xs[..n], f, e);
      if exists x :: x in xs && f(x) == Ok(Some(e)) {
        var x :| x in xs && f(x) == Ok(Some(e));
        if x != xs[n] {
          var i :| 0 <= i < |xs| && xs[i] == x;
          assert xs[..n][i] == x;
        }
      }
      if exists x :: x in xs[..n] && f(x) == Ok(Some(e)) {
        var x :| x in xs[..n] && f(x) == Ok(Some(e));
        var i :| 0 <= i < n && xs[..n][i] == x;
        assert xs[i] == x;
      }
    }
  }

  /** Flattening fails exactly when some item raises, and then with an error one of them raised. */
  lemma {:induction false} FlattenFails<X, E>(xs: seq<X>, g: X -> Result<seq<E>>)
    ensures Flatten(xs, g).Err? <==> exists i :: 0 <= i < |xs| && g(xs[i]).Err?
    ensures Flatten(xs, g).Err? ==> exists i :: 0 <= i < |xs| && g(xs[i]) == Err(Flatten(xs, g).error)
  {
    if xs != [] {
      var n := |xs| - 1;
      FlattenFails(xs[..n], g);
      assert forall i :: 0 <= i < n ==> xs[..n][i] == xs[i];
    }
  }

  /** When flattening succeeds, every item succeeded. */
  lemma {:induction false} FlattenOk<X, E>(xs: seq<X>, g: X -> Result<seq<E>>)
    requires Flatten(xs, g).Ok?
    ensures forall x :: x in xs ==> g(x).Ok?
  {
    if xs != [] {
      var n := |xs| - 1;
      FlattenOk(xs[..n], g);
      forall x | x in xs
        ensures g(x).Ok?
      {
        if x != xs[n] {
          var i :| 0 <= i < |xs| && xs[i] == x;
          assert xs[..n][i] == x;
        }
      }
    }
  }

  /** What is flattened is exactly what the items give. */
  lemma {:induction false} FlattenMembers<X, E>(xs: seq<X>, g: X -> Result<seq<E>>, e: E)
    requires Flatten(xs, g).Ok?
    ensures e in Flatten(xs, g).value <==> exists x :: x in xs && g(x).Ok? && e in g(x).value
  {
    if xs != [] {
      var n := |xs| - 1;
      FlattenMembers(xs[..n], g, e);
      if exists x :: x in xs[..n] && g(x).Ok? && e in g(x).value {
        var x :| x in xs[..n] && g(x).Ok? && e in g(x).value;
        var i :| 0 <= i < n && xs[..n][i] == x;
        assert xs[i] == x;
      }
    }
  }

  /** Once a prefix raises, the whole raises the same exception. */
  lemma {:induction false} CollectPrefixFails<X, E>(xs: seq<X>, i: int, f: X -> Result<Option<E>>)
    requires 0 <= i <= |xs| && Collect(xs[..i], f).Err?
    ensures Collect(xs, f) == Collect(xs[..i], f)
    decreases |xs| - i
  {
    if i < |xs| {
      CollectStep(xs, i, f);
      CollectPrefixFails(xs, i + 1, f);
    } else {
      assert xs[..i] == xs;
    }
  }

  /** Once a prefix raises, the whole raises the same exception. */
  lemma {:induction false} FlattenPrefixFails<X, E>(xs: seq<X>, i: int, g: X -> Result<seq<E>>)
    requires 0 <= i <= |xs| && Flatten(xs[..i], g).Err?
    ensures Flatten(xs, g) == Flatten(xs[..i], g)
    decreases |xs| - i
  {
    if i < |xs| {
      FlattenStep(xs, i, g);
      FlattenPrefixFails(xs, i + 1, g);
    } else {
      assert xs[..i] == xs;
    }
  }

  /** A comprehension that cannot raise: what each item gives, concatenated in order. */
  function FlatMap<X, E>(xs: seq<X>, g: X -> seq<E>): seq<E>
  {
    if xs == [] then []
    else
      var n := |xs| - 1;
      FlatMap(xs[..n], g) + g(xs[n])
  }

  /** What is gathered is exactly what the items give. */
  lemma {:induction false} FlatMapMembers<X, E>(xs: seq<X>, g: X -> seq<E>, e: E)
    ensures e in FlatMap(xs, g) <==> exists x :: x in xs && e in g(x)
  {
    if xs != [] {
      var n := |xs| - 1;
      FlatMapMembers(xs[..n], g, e);
      if exists x :: x in xs && e in g(x) {
        var x :| x in xs && e in g(x);
        if x != xs[n] {
          var i :| 0 <= i < |xs| && xs[i] == x;
          assert xs[..n][i] == x;
        }
      }
      if exists x :: x in xs[..n] && e in g(x) {
        var x :| x in xs[..n] && e in g(x);
        var i :| 0 <= i < n && xs[..n][i] == x;
        assert xs[i] == x;
      }
    }
  }

  /** The set a run of `res.add(item)` leaves. */
  function Elements<T>(s: seq<T>): set<T>
  {
    set x | x in s
  }

  /** `res` after a run of `res.add(item)`, or the exception one of them raised. */
  function Gathered<T>(before: set<T>, items: Result<seq<T>>): Result<set<T>>
  {
    if items.Err? then Err(items.error) else Ok(before + Elements(items.value))
  }

  lemma ElementsConcat<T>(a: seq<T>, b: seq<T>)
    ensures Elements(a + b) == Elements(a) + Elements(b)
  {
  }

  /** A loop that appends what each item gives, skipping the items that give nothing. */
  function Filtered<X, E>(xs: seq<X>, f: X -> Option<E>): seq<E>
  {
    if xs == [] then []
    else
      var n := |xs| - 1;
      Filtered(xs[..n], f) + (if f(xs[n]).Some? then [f(xs[n]).value] else [])
  }

  /** What is appended is exactly what the items give. */
  lemma {:induction false} FilteredMembers<X, E>(xs: seq<X>, f: X -> Option<E>, e: E)
    ensures e in Filtered(xs, f) <==> exists x :: x in xs && f(x) == Some(e)
  {
    if xs != [] {
      var n := |xs| - 1;
      FilteredMembers(xs[..n], f, e);
      if exists x :: x in xs && f(x) == Some(e) {
        var x :| x in xs && f(x) == Some(e);
        if x != xs[n] {
          var i :| 0 <= i < |xs| && xs[i] == x;
          assert xs[..n][i] == x;
        }
      }
      if exists x :: x in xs[..n] && f(x) == Some(e) {
        var x :| x in xs[..n] && f(x) == Some(e);
        var i :| 0 <= i < n && xs[..n][i] == x;
        assert xs[i] == x;
      }
    }
  }

  /** When no item is skipped, item `i` gives entry `i`. */
  lemma {:induction false} FilteredAll<X, E>(xs: seq<X>, f: X -> Option<E>)
    requires forall i :: 0 <= i < |xs| ==> f(xs[i]).Some?
    ensures |Filtered(xs, f)| == |xs|
    ensures forall i :: 0 <= i < |xs| ==> Filtered(xs, f)[i] == f(xs[i]).value
  {
    if xs != [] {
      var n := |xs| - 1;
      assert forall i :: 0 <= i < n ==> xs[..n][i] == xs[i];
      FilteredAll(xs[..n], f);
    }
  }

  /** Each item gives at most one entry, and when every item is skipped nothing is appended. */
  lemma {:induction false} FilteredBound<X, E>(xs: seq<X>, f: X -> Option<E>)
    ensures |Filtered(xs, f)| <= |xs|
    ensures (forall i :: 0 <= i < |xs| ==> f(xs[i]).None?) ==> Filtered(xs, f) == []
  {
    if xs != [] {
      var n := |xs| - 1;
      assert forall i :: 0 <= i < n ==> xs[..n][i] == xs[i];
      FilteredBound(xs[..n], f);
    }
  }
}
