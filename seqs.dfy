/** Order-preserving selection over sequences: the shapes of `Array.prototype.filter`
    and of a list built by conditional `push` calls. */
module Seqs {

  /** The elements of `s` that satisfy `p`, in their original order. */
  function Filter<T(==)>(p: T -> bool, s: seq<T>): (r: seq<T>)
    ensures |r| <= |s|
    ensures forall i :: 0 <= i < |r| ==> r[i] in s && p(r[i])
    ensures forall i :: 0 <= i < |s| && p(s[i]) ==> s[i] in r
  {
    if |s| == 0 then []
    else
      var init, last := s[..|s| - 1], s[|s| - 1];
      assert s == init + [last];
      Filter(p, init) + (if p(last) then [last] else [])
  }

  /** Filtering distributes over concatenation: together with its action on one element,
      this says Filter keeps order and drops nothing that satisfies `p`. */
  lemma {:induction false} FilterAppend<T>(p: T -> bool, a: seq<T>, b: seq<T>)
    ensures Filter(p, a + b) == Filter(p, a) + Filter(p, b)
    decreases |b|
  {
    if |b| == 0 {
      assert a + b == a;
    } else {
      var init, last := b[..|b| - 1], b[|b| - 1];
      assert (a + b)[..|a + b| - 1] == a + init;
      assert (a + b)[|a + b| - 1] == last;
      FilterAppend(p, a, init);
    }
  }

  /** When every element satisfies `p`, nothing is dropped. */
  lemma {:induction false} FilterKeepsAll<T>(p: T -> bool, s: seq<T>)
    requires forall i :: 0 <= i < |s| ==> p(s[i])
    ensures Filter(p, s) == s
  {
    if |s| > 0 {
      FilterKeepsAll(p, s[..|s| - 1]);
      assert s == s[..|s| - 1] + [s[|s| - 1]];
    }
  }

  /** When no element satisfies `p`, the result is empty. */
  lemma {:induction false} FilterDropsAll<T>(p: T -> bool, s: seq<T>)
    requires forall i :: 0 <= i < |s| ==> !p(s[i])
    ensures Filter(p, s) == []
  {
    if |s| > 0 {
      FilterDropsAll(p, s[..|s| - 1]);
    }
  }

  /** Two tests that agree on every element select the same elements. */
  lemma {:induction false} FilterCongruent<T>(p: T -> bool, q: T -> bool, s: seq<T>)
    requires forall i :: 0 <= i < |s| ==> p(s[i]) == q(s[i])
    ensures Filter(p, s) == Filter(q, s)
  {
    if |s| > 0 {
      FilterCongruent(p, q, s[..|s| - 1]);
    }
  }

  /** `[f(0), ..., f(n - 1)]`, built as a loop pushing `f(i)` for each index in turn would
      build it. */
  function Tabulate<T>(f: nat -> T, n: nat): (r: seq<T>)
    ensures |r| == n
    ensures forall i :: 0 <= i < n ==> r[i] == f(i)
  {
    if n == 0 then [] else Tabulate(f, n - 1) + [f(n - 1)]
  }

  /** The loop `for (let i = 0; i < n; i++) list.push(f(i))`. */
  method PushEach<T>(f: nat -> T, n: nat) returns (list: seq<T>)
    ensures list == Tabulate(f, n)
  {
    list := [];
    var i := 0;
    while i < n
      invariant 0 <= i <= n
      invariant list == Tabulate(f, i)
    {
      list := list + [f(i)];
      i := i + 1;
    }
  }

  /** The values whose flag is set, in table order: a list built by a run of
      `if (flag) list.push(value)` statements. */
  function Selected<T(==)>(cands: seq<(bool, T)>): (r: seq<T>)
    ensures |r| <= |cands|
    ensures forall i :: 0 <= i < |cands| && cands[i].0 ==> cands[i].1 in r
    ensures forall j :: 0 <= j < |r| ==> exists i :: 0 <= i < |cands| && cands[i] == (true, r[j])
  {
    if |cands| == 0 then []
    else
      var init, last := cands[..|cands| - 1], cands[|cands| - 1];
      assert cands == init + [last];
      Selected(init) + (if last.0 then [last.1] else [])
  }
}
