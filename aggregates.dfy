/**
 * The two shapes most endpoints share: walking a list of documents and
 * keeping a projection of some of them (a list comprehension with an `if`,
 * or a loop that appends), and counting occurrences of keys in a dict that
 * a loop increments.
 */
module Aggregates {
  import opened Wrappers

  /**
   * The image under f of the elements for which f gives Some, in input
   * order. Defined from the end so that a loop appending to a list follows it
   * step by step.
   */
  function FilterMap<A, B>(s: seq<A>, f: A -> Option<B>): (r: seq<B>)
    ensures |r| <= |s|
  {
    if s == [] then []
    else
      var init := FilterMap(s[..|s| - 1], f);
      match f(s[|s| - 1])
      case Some(y) => init + [y]
      case None => init
  }

  /** Every element kept is the image of some element of the input. */
  lemma {:induction false} FilterMapSound<A, B>(s: seq<A>, f: A -> Option<B>)
    ensures forall y :: y in FilterMap(s, f) ==> exists i :: 0 <= i < |s| && f(s[i]) == Some(y)
  {
    if s != [] {
      var init := s[..|s| - 1];
      FilterMapSound(init, f);
      forall y | y in FilterMap(s, f) ensures exists i :: 0 <= i < |s| && f(s[i]) == Some(y) {
        if y in FilterMap(init, f) {
          var i :| 0 <= i < |init| && f(init[i]) == Some(y);
          assert init[i] == s[i];
        } else {
          assert f(s[|s| - 1]) == Some(y);
        }
      }
    }
  }

  /** One more element of the input adds its image, if any, at the end: the step of an appending loop. */
  lemma FilterMapStep<A, B>(s: seq<A>, f: A -> Option<B>, i: nat)
    requires i < |s|
    ensures FilterMap(s[..i + 1], f) == FilterMap(s[..i], f) + (if f(s[i]).Some? then [f(s[i]).value] else [])
  {
    assert s[..i + 1][..i] == s[..i];
  }

  /** Keeping is a homomorphism: the projection of a concatenation is the concatenation of the projections, so input order is kept. */
  lemma {:induction false} FilterMapAppend<A, B>(a: seq<A>, b: seq<A>, f: A -> Option<B>)
    ensures FilterMap(a + b, f) == FilterMap(a, f) + FilterMap(b, f)
    decreases |b|
  {
    if b == [] {
      assert a + b == a;
    } else {
      var b' := b[..|b| - 1];
      assert (a + b)[..|a + b| - 1] == a + b';
      FilterMapAppend(a, b', f);
    }
  }

  /** Every element whose image is Some(y) contributes y. */
  lemma {:induction false} FilterMapComplete<A, B>(s: seq<A>, f: A -> Option<B>, i: nat)
    requires i < |s| && f(s[i]).Some?
    ensures f(s[i]).value in FilterMap(s, f)
    decreases |s|
  {
    if i < |s| - 1 {
      assert s[..|s| - 1][i] == s[i];
      FilterMapComplete(s[..|s| - 1], f, i);
    }
  }

  /** The number of elements whose image is Some, counted from the front. */
  function CountSome<A, B>(s: seq<A>, f: A -> Option<B>): nat {
    if s == [] then 0 else (if f(s[0]).Some? then 1 else 0) + CountSome(s[1..], f)
  }

  lemma {:induction false} FilterMapLength<A, B>(s: seq<A>, f: A -> Option<B>)
    ensures |FilterMap(s, f)| == CountSome(s, f)
  {
    if s != [] {
      FilterMapLength(s[1..], f);
      FilterMapAppend([s[0]], s[1..], f);
      assert [s[0]] + s[1..] == s;
      assert [s[0]][..0] == [];
    }
  }

  // ---------------------------------------------------------------------
  // Counting keys

  /** `m[k] = m.get(k, 0) + 1` */
  function Bump<K>(m: map<K, nat>, k: K): (r: map<K, nat>)
    ensures r.Keys == m.Keys + {k}
    ensures r[k] == (if k in m then m[k] else 0) + 1
    ensures forall j :: j in m && j != k ==> r[j] == m[j]
  {
    m[k := if k in m then m[k] + 1 else 1]
  }

  /** The counts of each key in ks, as a loop of Bumps from an empty dict builds them. */
  function Tally<K>(ks: seq<K>): map<K, nat> {
    if ks == [] then map[] else Bump(Tally(ks[..|ks| - 1]), ks[|ks| - 1])
  }

  /** One more key bumps its count: the step of a counting loop. */
  lemma TallyStep<K>(ks: seq<K>, k: K)
    ensures Tally(ks + [k]) == Bump(Tally(ks), k)
  {
    assert (ks + [k])[..|ks|] == ks;
  }

  /** The keys of the tally are the elements of ks, each mapped to its number of occurrences. */
  lemma {:induction false} TallyCounts<K>(ks: seq<K>)
    ensures Tally(ks).Keys == set k | k in ks
    ensures forall k :: k in Tally(ks) ==> Tally(ks)[k] == multiset(ks)[k]
  {
    if ks != [] {
      var init := ks[..|ks| - 1];
      TallyCounts(init);
      assert ks == init + [ks[|ks| - 1]];
      assert multiset(ks) == multiset(init) + multiset{ks[|ks| - 1]};
    }
  }

  /** The sum of the counts of a dict. */
  ghost function Total<K>(m: map<K, nat>): nat
    decreases |m|
  {
    if m == map[] then 0
    else
      var k :| k in m;
      m[k] + Total(m - {k})
  }

  /** The sum does not depend on which key is taken out first. */
  lemma {:induction false} TotalRemove<K>(m: map<K, nat>, k: K)
    requires k in m
    ensures Total(m) == m[k] + Total(m - {k})
    decreases |m|
  {
    var j :| j in m && Total(m) == m[j] + Total(m - {j});
    if j != k {
      assert |m - {j}| < |m| by { assert (m - {j}).Keys < m.Keys; }
      assert |m - {k}| < |m| by { assert (m - {k}).Keys < m.Keys; }
      TotalRemove(m - {j}, k);
      TotalRemove(m - {k}, j);
      assert m - {j} - {k} == m - {k} - {j};
    }
  }

  lemma TotalBump<K>(m: map<K, nat>, k: K)
    ensures Total(Bump(m, k)) == Total(m) + 1
  {
    var r := Bump(m, k);
    TotalRemove(r, k);
    assert r - {k} == m - {k};
    if k in m {
      TotalRemove(m, k);
    } else {
      assert m - {k} == m;
    }
  }

  /** Counting n keys gives counts that sum to n. */
  lemma {:induction false} TallyTotal<K>(ks: seq<K>)
    ensures Total(Tally(ks)) == |ks|
  {
    if ks == [] {
    } else {
      TallyTotal(ks[..|ks| - 1]);
      TotalBump(Tally(ks[..|ks| - 1]), ks[|ks| - 1]);
    }
  }
}
