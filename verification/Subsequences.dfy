/** Subsequences, with the embedding as witness. */
module Subsequences {
  import opened Common

  /** `f` picks the elements of `a`, in order, out of `b`. */
  ghost predicate Embeds<T>(a: seq<T>, b: seq<T>, f: seq<nat>) {
    && |f| == |a|
    && (forall i :: 0 <= i < |a| ==> f[i] < |b| && a[i] == b[f[i]])
    && (forall i, j :: 0 <= i < j < |a| ==> f[i] < f[j])
  }

  ghost predicate Subsequence<T>(a: seq<T>, b: seq<T>) {
    exists f :: Embeds(a, b, f)
  }

  lemma SubRefl<T>(a: seq<T>)
    ensures Subsequence(a, a)
  {
    assert Embeds(a, a, seq(|a|, i => i));
  }

  lemma SubTrans<T>(a: seq<T>, b: seq<T>, c: seq<T>)
    requires Subsequence(a, b) && Subsequence(b, c)
    ensures Subsequence(a, c)
  {
    var f :| Embeds(a, b, f);
    var g :| Embeds(b, c, g);
    assert Embeds(a, c, seq(|a|, i requires 0 <= i < |a| => g[f[i]]));
  }

  lemma SubConcat<T>(a: seq<T>, b: seq<T>, c: seq<T>, d: seq<T>)
    requires Subsequence(a, b) && Subsequence(c, d)
    ensures Subsequence(a + c, b + d)
  {
    var f :| Embeds(a, b, f);
    var g :| Embeds(c, d, g);
    assert Embeds(a + c, b + d, f + seq(|c|, i requires 0 <= i < |c| => |b| + g[i]));
  }

  lemma SubEmpty<T>(b: seq<T>)
    ensures Subsequence([], b)
  {
    assert Embeds<T>([], b, []);
  }

  lemma SubDistinct<T(!new)>(a: seq<T>, b: seq<T>)
    requires Subsequence(a, b) && Distinct(b)
    ensures Distinct(a)
    ensures forall x :: x in a ==> x in b
  {
    var f :| Embeds(a, b, f);
  }

  /** In a subsequence of distinct elements, order is the order of the whole. */
  lemma SubOrder<T(!new)>(a: seq<T>, b: seq<T>, i: nat, j: nat, k: nat, l: nat)
    requires Subsequence(a, b) && Distinct(b)
    requires i < |a| && j < |a| && k < |b| && l < |b| && a[i] == b[k] && a[j] == b[l]
    ensures k < l ==> i < j
  {
    var f :| Embeds(a, b, f);
    assert f[i] == k && f[j] == l;
  }
}
