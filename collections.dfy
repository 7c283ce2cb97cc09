/** Optional values and the order-keeping de-duplication the system applies to
    question lists (a HashSet of seen keys in C#, `[...new Set(xs)]` in TypeScript). */
module Wrappers {

  /** A nullable value (`string?`, `int?`). */
  datatype Option<+T> = None | Some(value: T) {
    function GetOr(default: T): T {
      match this
      case Some(v) => v
      case None => default
    }
  }
}

module Collections {
  import opened Wrappers

  /** Keeps, in input order, the first element of each key; keys in `seen` are already taken. */
  function DedupBy<T, K>(xs: seq<T>, key: T -> K, seen: set<K>): (r: seq<T>)
    ensures |r| <= |xs|
  {
    if xs == [] then []
    else if key(xs[0]) in seen then DedupBy(xs[1..], key, seen)
    else [xs[0]] + DedupBy(xs[1..], key, seen + {key(xs[0])})
  }

  /** A non-empty sequence is its front followed by its last element. */
  lemma SnocLast<T>(xs: seq<T>)
    requires xs != []
    ensures xs[..|xs| - 1] + [xs[|xs| - 1]] == xs
  {
  }

  /** A non-empty sequence is its first element followed by the rest. */
  lemma ConsFirst<T>(xs: seq<T>)
    requires xs != []
    ensures [xs[0]] + xs[1..] == xs
  {
  }

  /** The suffix from i is its first element followed by the suffix from i + 1. */
  lemma SliceCons<T>(xs: seq<T>, i: nat)
    requires i < |xs|
    ensures xs[i..] == [xs[i]] + xs[i + 1..]
  {
  }

  lemma AppendAssoc<T>(a: seq<T>, b: seq<T>, c: seq<T>)
    ensures a + b + c == a + (b + c)
  {
  }

  /** A property of the head and of every element of the tail holds of every element of the
      whole. */
  lemma AllCons<T>(x: T, xs: seq<T>, p: T -> bool)
    requires p(x) && forall k :: 0 <= k < |xs| ==> p(xs[k])
    ensures forall k :: 0 <= k < |[x] + xs| ==> p(([x] + xs)[k])
  {
    forall k | 0 < k < |[x] + xs| ensures p(([x] + xs)[k]) {
      assert ([x] + xs)[k] == xs[k - 1];
    }
  }

  /** A property of every element holds of every element of the tail. */
  lemma AllTail<T>(xs: seq<T>, p: T -> bool)
    requires xs != [] && forall k :: 0 <= k < |xs| ==> p(xs[k])
    ensures forall k :: 0 <= k < |xs[1..]| ==> p(xs[1..][k])
  {
    forall k | 0 <= k < |xs[1..]| ensures p(xs[1..][k]) {
      assert xs[1..][k] == xs[k + 1];
    }
  }

  /** The elements of xs that satisfy p, in order (LINQ Where, Array.filter). */
  function Filter<T>(xs: seq<T>, p: T -> bool): (r: seq<T>)
    ensures |r| <= |xs|
  {
    if xs == [] then []
    else if p(xs[0]) then [xs[0]] + Filter(xs[1..], p)
    else Filter(xs[1..], p)
  }

  /** Every element that passes the filter satisfies p and comes from the input. */
  lemma {:induction false} FilterMembers<T>(xs: seq<T>, p: T -> bool)
    ensures forall k :: 0 <= k < |Filter(xs, p)| ==> p(Filter(xs, p)[k]) && Filter(xs, p)[k] in xs
  {
    if xs != [] {
      FilterMembers(xs[1..], p);
      var r := Filter(xs, p);
      forall k | 0 <= k < |r| ensures p(r[k]) && r[k] in xs {
        if p(xs[0]) && k > 0 {
          assert r[k] == Filter(xs[1..], p)[k - 1];
        }
        if !p(xs[0]) {
          assert r[k] == Filter(xs[1..], p)[k];
        }
        if r[k] in xs[1..] { }
      }
    }
  }

  /** A filter every element passes changes nothing. */
  lemma {:induction false} FilterKeepsAll<T>(xs: seq<T>, p: T -> bool)
    requires forall k :: 0 <= k < |xs| ==> p(xs[k])
    ensures Filter(xs, p) == xs
  {
    if xs != [] {
      FilterKeepsAll(xs[1..], p);
      assert [xs[0]] + xs[1..] == xs;
    }
  }

  /** r is obtained from xs by deleting elements (order kept). */
  predicate IsSubseq<T(==)>(r: seq<T>, xs: seq<T>)
    decreases |xs|
  {
    if r == [] then true
    else if xs == [] then false
    else if r[0] == xs[0] then IsSubseq(r[1..], xs[1..])
    else IsSubseq(r, xs[1..])
  }

  lemma {:induction false} SubseqMembers<T>(r: seq<T>, xs: seq<T>)
    requires IsSubseq(r, xs)
    ensures forall y :: y in r ==> y in xs
    decreases |xs|
  {
    if r != [] && xs != [] {
      if r[0] == xs[0] {
        SubseqMembers(r[1..], xs[1..]);
        forall y | y in r ensures y in xs {
          if y != r[0] { assert y in r[1..]; }
        }
      } else {
        SubseqMembers(r, xs[1..]);
      }
    }
  }

  /** No two kept elements share a key, and none has a key that was already taken. */
  lemma {:induction false} DedupDistinct<T, K>(xs: seq<T>, key: T -> K, seen: set<K>)
    ensures forall i :: 0 <= i < |DedupBy(xs, key, seen)| ==> key(DedupBy(xs, key, seen)[i]) !in seen
    ensures forall i, j :: 0 <= i < j < |DedupBy(xs, key, seen)| ==>
              key(DedupBy(xs, key, seen)[i]) != key(DedupBy(xs, key, seen)[j])
  {
    if xs != [] {
      if key(xs[0]) in seen {
        DedupDistinct(xs[1..], key, seen);
      } else {
        var seen' := seen + {key(xs[0])};
        DedupDistinct(xs[1..], key, seen');
        var r := DedupBy(xs, key, seen);
        assert r == [xs[0]] + DedupBy(xs[1..], key, seen');
        forall i | 0 < i < |r| ensures key(r[i]) != key(r[0]) && key(r[i]) !in seen {
          assert r[i] == DedupBy(xs[1..], key, seen')[i - 1];
        }
      }
    }
  }

  /** The kept elements appear in the input, in the same order. */
  lemma {:induction false} DedupSubseq<T, K>(xs: seq<T>, key: T -> K, seen: set<K>)
    ensures IsSubseq(DedupBy(xs, key, seen), xs)
  {
    if xs != [] {
      if key(xs[0]) in seen {
        DedupSubseq(xs[1..], key, seen);
        SubseqSkip(DedupBy(xs[1..], key, seen), xs);
      } else {
        DedupSubseq(xs[1..], key, seen + {key(xs[0])});
      }
    }
  }

  lemma {:induction false} SubseqSkip<T>(r: seq<T>, xs: seq<T>)
    requires xs != [] && IsSubseq(r, xs[1..])
    ensures IsSubseq(r, xs)
    decreases |r| + |xs|
  {
    if r != [] && r[0] == xs[0] {
      // r[0] is matched at xs[0]; the rest of r still lies within xs[1..].
      SubseqTail(r, xs[1..]);
    }
  }

  lemma {:induction false} SubseqTail<T>(r: seq<T>, xs: seq<T>)
    requires r != [] && IsSubseq(r, xs)
    ensures IsSubseq(r[1..], xs)
    decreases |r| + |xs|
  {
    if xs != [] {
      if r[0] == xs[0] {
        SubseqSkip(r[1..], xs);
      } else {
        SubseqTail(r, xs[1..]);
        SubseqSkip(r[1..], xs);
      }
    }
  }

  /** One element of a filter-then-dedup pass: dropped by the filter, dropped as a repeat, or kept. */
  lemma DedupFilterStep<T, K>(xs: seq<T>, i: nat, p: T -> bool, key: T -> K, seen: set<K>)
    requires i < |xs|
    ensures DedupBy(Filter(xs[i..], p), key, seen) ==
              if !p(xs[i]) || key(xs[i]) in seen then DedupBy(Filter(xs[i + 1..], p), key, seen)
              else [xs[i]] + DedupBy(Filter(xs[i + 1..], p), key, seen + {key(xs[i])})
  {
    assert xs[i..][1..] == xs[i + 1..];
  }

  /** One element of a de-duplication pass: dropped as a repeat, or kept. */
  lemma DedupStep<T, K>(xs: seq<T>, i: nat, key: T -> K, seen: set<K>)
    requires i < |xs|
    ensures DedupBy(xs[i..], key, seen) ==
              if key(xs[i]) in seen then DedupBy(xs[i + 1..], key, seen)
              else [xs[i]] + DedupBy(xs[i + 1..], key, seen + {key(xs[i])})
  {
    assert xs[i..][1..] == xs[i + 1..];
  }

  /** A sequence whose keys are distinct and unseen passes de-duplication unchanged. */
  lemma {:induction false} DedupNoRepeats<T, K>(xs: seq<T>, key: T -> K, seen: set<K>)
    requires forall i :: 0 <= i < |xs| ==> key(xs[i]) !in seen
    requires forall i, j :: 0 <= i < j < |xs| ==> key(xs[i]) != key(xs[j])
    ensures DedupBy(xs, key, seen) == xs
  {
    if xs != [] {
      var seen' := seen + {key(xs[0])};
      forall i | 0 <= i < |xs[1..]| ensures key(xs[1..][i]) !in seen' {
        assert xs[1..][i] == xs[i + 1];
      }
      DedupNoRepeats(xs[1..], key, seen');
      assert [xs[0]] + xs[1..] == xs;
    }
  }

  /** What survives filtering and de-duplication satisfies the filter and comes from the input. */
  lemma DedupFilterMembers<T, K>(xs: seq<T>, p: T -> bool, key: T -> K, seen: set<K>)
    ensures forall k :: 0 <= k < |DedupBy(Filter(xs, p), key, seen)| ==>
              p(DedupBy(Filter(xs, p), key, seen)[k]) && DedupBy(Filter(xs, p), key, seen)[k] in xs
  {
    var f := Filter(xs, p);
    var r := DedupBy(f, key, seen);
    FilterMembers(xs, p);
    DedupSubseq(f, key, seen);
    SubseqMembers(r, f);
    forall k | 0 <= k < |r| ensures p(r[k]) && r[k] in xs {
      assert r[k] in f;
    }
  }

  /** First occurrence wins: an element whose key is new and unseen before it is kept. */
  lemma {:induction false} DedupKeepsFirst<T, K>(xs: seq<T>, key: T -> K, seen: set<K>, i: nat)
    requires i < |xs| && key(xs[i]) !in seen
    requires forall k :: 0 <= k < i ==> key(xs[k]) != key(xs[i])
    ensures xs[i] in DedupBy(xs, key, seen)
  {
    if i == 0 {
    } else if key(xs[0]) in seen {
      DedupKeepsFirst(xs[1..], key, seen, i - 1);
    } else {
      DedupKeepsFirst(xs[1..], key, seen + {key(xs[0])}, i - 1);
    }
  }

  /** Every input key is represented in the output (or was already taken). */
  lemma {:induction false} DedupCovers<T, K>(xs: seq<T>, key: T -> K, seen: set<K>, i: nat)
    requires i < |xs|
    ensures key(xs[i]) in seen || exists y :: y in DedupBy(xs, key, seen) && key(y) == key(xs[i])
  {
    if key(xs[i]) !in seen {
      var k := FirstIndex(xs, key, i);
      DedupKeepsFirst(xs, key, seen, k);
    }
  }

  /** The position of the first element from i on that satisfies p (Array.find, a loop
      that breaks at the first hit). */
  function FindFirst<T>(xs: seq<T>, i: nat, p: T -> bool): (r: Option<nat>)
    requires i <= |xs|
    ensures r.Some? ==> i <= r.value < |xs| && p(xs[r.value])
    decreases |xs| - i
  {
    if i == |xs| then None else if p(xs[i]) then Some(i) else FindFirst(xs, i + 1, p)
  }

  /** FindFirst finds nothing exactly when no element from i on satisfies p, and what it
      finds has no satisfying element before it. */
  lemma {:induction false} FindFirstIsFirst<T>(xs: seq<T>, i: nat, p: T -> bool)
    requires i <= |xs|
    ensures FindFirst(xs, i, p).None? <==> forall j :: i <= j < |xs| ==> !p(xs[j])
    ensures FindFirst(xs, i, p).Some? ==> forall m :: i <= m < FindFirst(xs, i, p).value ==> !p(xs[m])
    decreases |xs| - i
  {
    if i < |xs| && !p(xs[i]) {
      FindFirstIsFirst(xs, i + 1, p);
    }
  }

  /** An element that satisfies p with none before it is what FindFirst finds. */
  lemma {:induction false} FindFirstAt<T>(xs: seq<T>, i: nat, j: nat, p: T -> bool)
    requires i <= j < |xs| && p(xs[j])
    requires forall m :: i <= m < j ==> !p(xs[m])
    ensures FindFirst(xs, i, p) == Some(j)
    decreases j - i
  {
    if i < j {
      FindFirstAt(xs, i + 1, j, p);
    }
  }

  /** The first position whose key equals the key at position i. */
  lemma FirstIndex<T, K>(xs: seq<T>, key: T -> K, i: nat) returns (k: nat)
    requires i < |xs|
    ensures k <= i && key(xs[k]) == key(xs[i])
    ensures forall m :: 0 <= m < k ==> key(xs[m]) != key(xs[i])
  {
    k := 0;
    while key(xs[k]) != key(xs[i])
      invariant k <= i
      invariant forall m :: 0 <= m < k ==> key(xs[m]) != key(xs[i])
      decreases i - k
    {
      k := k + 1;
    }
  }
}

/** The language-model backends seen from the code that calls them. */
module Backend {
  import opened Wrappers

  /** What one IAIProvider.GenerateAsync call produced: its text, or the exception it raised. */
  datatype Reply = Answer(text: string) | Raised(message: string)

  /** One call as the provider receives it: the prompt and the model override (null = default). */
  datatype Call = Call(prompt: string, model: Option<string>)

  /** The provider as an oracle: the k-th call of a run (counting from 0) receives script(k). */
  type Script = nat -> Reply

  /** The same oracle, after n calls have already been answered. */
  function Shift(script: Script, n: nat): Script {
    (k: nat) => script(n + k)
  }

  /** A result together with the provider calls made, in order, to obtain it. */
  datatype Traced<T> = Traced(value: T, calls: seq<Call>)

  /** How a step that lets provider exceptions escape ended. */
  datatype Outcome<T> = Done(value: T) | Thrown(message: string)

  /** How a provider reply surfaces to a caller that lets its exception propagate. */
  function Reflect(reply: Reply): Outcome<string> {
    match reply
    case Answer(t) => Done(t)
    case Raised(m) => Thrown(m)
  }
}
