/** Python dictionaries with string keys, modelled as lists of entries in
    insertion order with distinct keys. Assigning an existing key replaces its
    value in place; a new key goes to the end. */
module Dicts {
  import opened Wrappers

  predicate DistinctKeys<V>(s: seq<(string, V)>)
  {
    forall i, j :: 0 <= i < j < |s| ==> s[i].0 != s[j].0
  }

  type Dict<V> = s: seq<(string, V)> | DistinctKeys(s) witness []

  /** A year-indexed series of values, e.g. revenue by fiscal year. */
  type Series = Dict<real>

  /** `[f(x) for x in xs]` */
  function MapList<A, B>(xs: seq<A>, f: A -> B): (ys: seq<B>)
    ensures |ys| == |xs| && forall i :: 0 <= i < |xs| ==> ys[i] == f(xs[i])
  {
    seq(|xs|, i requires 0 <= i < |xs| => f(xs[i]))
  }

  /** `list(d.keys())` */
  function Keys<V>(d: seq<(string, V)>): (r: seq<string>)
    ensures |r| == |d| && forall i :: 0 <= i < |d| ==> r[i] == d[i].0
  {
    if d == [] then [] else Keys(d[..|d| - 1]) + [d[|d| - 1].0]
  }

  /** `list(d.values())` */
  function Values<V>(d: seq<(string, V)>): (r: seq<V>)
    ensures |r| == |d| && forall i :: 0 <= i < |d| ==> r[i] == d[i].1
  {
    if d == [] then [] else Values(d[..|d| - 1]) + [d[|d| - 1].1]
  }

  predicate HasKey<V>(d: seq<(string, V)>, k: string) { k in Keys(d) }

  /** Position of key `k`. */
  function KeyIndex<V>(d: seq<(string, V)>, k: string): (i: nat)
    requires HasKey(d, k)
    ensures i < |d| && d[i].0 == k
    ensures forall j :: 0 <= j < i ==> d[j].0 != k
  {
    if d[0].0 == k then 0
    else
      assert Keys(d)[1..] == Keys(d[1..]);
      1 + KeyIndex(d[1..], k)
  }

  /** `d[k]` */
  function Get<V>(d: seq<(string, V)>, k: string): (v: V)
    requires HasKey(d, k)
    ensures exists i :: 0 <= i < |d| && d[i] == (k, v)
    ensures DistinctKeys(d) ==> forall i :: 0 <= i < |d| && d[i].0 == k ==> d[i].1 == v
  {
    var i := KeyIndex(d, k);
    assert d[i] == (k, d[i].1);
    d[i].1
  }

  /** `d[k] = v` */
  function Set<V>(d: Dict<V>, k: string, v: V): (r: Dict<V>)
    ensures HasKey(r, k) && Get(r, k) == v
    ensures forall k' :: HasKey(r, k') <==> HasKey(d, k') || k' == k
    ensures forall k' :: k' != k && HasKey(d, k') ==> Get(r, k') == Get(d, k')
    ensures HasKey(d, k) ==> Keys(r) == Keys(d)
    ensures !HasKey(d, k) ==> r == d + [(k, v)]
  {
    if HasKey(d, k) then
      var i := KeyIndex(d, k);
      var r := d[i := (k, v)];
      assert Keys(r) == Keys(d);
      r
    else
      var r := d + [(k, v)];
      assert Keys(r) == Keys(d) + [k];
      r
  }

  /** Setting a key to the value it already has changes nothing. */
  lemma SetSame<V>(d: Dict<V>, k: string)
    requires HasKey(d, k)
    ensures Set(d, k, Get(d, k)) == d
  {
    var i := KeyIndex(d, k);
    assert d[i := (k, d[i].1)] == d;
  }

  /** `d.update(e)`: every entry of `e` set in order. */
  function Update<V>(d: Dict<V>, e: Dict<V>): (r: Dict<V>)
    decreases |e|
  {
    if e == [] then d
    else
      var init: Dict<V> := e[..|e| - 1];
      Set(Update(d, init), e[|e| - 1].0, e[|e| - 1].1)
  }

  /** After `d.update(e)` the keys are those of either, a key of `e` carries
      `e`'s value and the other keys keep theirs. */
  lemma {:induction false} UpdateSpec<V>(d: Dict<V>, e: Dict<V>, k: string)
    ensures HasKey(Update(d, e), k) <==> HasKey(d, k) || HasKey(e, k)
    ensures HasKey(e, k) ==> Get(Update(d, e), k) == Get(e, k)
    ensures !HasKey(e, k) && HasKey(d, k) ==> Get(Update(d, e), k) == Get(d, k)
    decreases |e|
  {
    if e != [] {
      var init: Dict<V> := e[..|e| - 1];
      UpdateSpec(d, init, k);
      assert Keys(e) == Keys(init) + [e[|e| - 1].0];
      if HasKey(e, k) && k != e[|e| - 1].0 {
        var i := KeyIndex(e, k);
        assert init[i] == e[i];
      }
    }
  }

  /** Sets, for each key `y` of `ys` in order, `y` to `f(y)` when `f` gives a
      value: the shape of a `for year in ...: if ...: d[year] = ...` loop. */
  function FillWith(base: Series, ys: seq<string>, f: string -> Option<real>): (r: Series)
    decreases |ys|
  {
    if ys == [] then base
    else
      var acc := FillWith(base, ys[..|ys| - 1], f);
      var y := ys[|ys| - 1];
      if f(y).Some? then Set(acc, y, f(y).value) else acc
  }

  /** One more listed key: the step the loop takes at position `i`. */
  lemma FillWithStep(base: Series, ys: seq<string>, i: nat, f: string -> Option<real>)
    requires i < |ys|
    ensures FillWith(base, ys[..i + 1], f)
         == if f(ys[i]).Some? then Set(FillWith(base, ys[..i], f), ys[i], f(ys[i]).value) else FillWith(base, ys[..i], f)
  {
    assert ys[..i + 1][..i] == ys[..i];
  }

  /** A filled series holds exactly the old keys and the keys listed with a
      value; a listed key carries its value, any other key its old value. */
  lemma {:induction false} FillWithSpec(base: Series, ys: seq<string>, f: string -> Option<real>, k: string)
    ensures HasKey(FillWith(base, ys, f), k) <==> HasKey(base, k) || (k in ys && f(k).Some?)
    ensures k in ys && f(k).Some? ==> Get(FillWith(base, ys, f), k) == f(k).value
    ensures !(k in ys && f(k).Some?) && HasKey(base, k) ==> Get(FillWith(base, ys, f), k) == Get(base, k)
    decreases |ys|
  {
    if ys != [] {
      FillWithSpec(base, ys[..|ys| - 1], f, k);
      assert ys == ys[..|ys| - 1] + [ys[|ys| - 1]];
    }
  }

  /** Existing entries keep their position: the old keys are a prefix of the
      new ones. */
  lemma {:induction false} FillWithKeepsOrder(base: Series, ys: seq<string>, f: string -> Option<real>)
    ensures |Keys(base)| <= |Keys(FillWith(base, ys, f))|
    ensures Keys(FillWith(base, ys, f))[..|base|] == Keys(base)
    decreases |ys|
  {
    if ys != [] {
      FillWithKeepsOrder(base, ys[..|ys| - 1], f);
    }
  }
}
