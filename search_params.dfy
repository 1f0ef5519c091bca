/**
 * The part of the browser's URLSearchParams that the client relies on, over
 * already-decoded name/value pairs: get, set, append and the serialised text.
 * Percent-encoding (the application/x-www-form-urlencoded serializer of the
 * WHATWG URL Standard) is not modelled: `Text` joins the raw strings.
 */
module SearchParams {
  import opened Wrappers

  datatype Param = Param(name: string, value: string)

  /** The list of name/value pairs of a query string, in order. */
  type Query = seq<Param>

  /** `get(name)`: the value of the first pair with that name, if any. */
  function Get(q: Query, name: string): (r: Option<string>)
    ensures r.None? <==> forall i :: 0 <= i < |q| ==> q[i].name != name
    ensures r.Some? ==> Param(name, r.value) in q
  {
    if q == [] then None
    else if q[0].name == name then Some(q[0].value)
    else Get(q[1..], name)
  }

  /** `get` returns the value of the first pair that carries the name. */
  lemma {:induction false} GetFirst(q: Query, name: string, k: nat)
    requires k < |q| && q[k].name == name
    requires forall j :: 0 <= j < k ==> q[j].name != name
    ensures Get(q, name) == Some(q[k].value)
  {
    if k > 0 {
      GetFirst(q[1..], name, k - 1);
    }
  }

  /** Looking a name up in a concatenation looks in the first part, then in the second. */
  lemma {:induction false} GetConcat(a: Query, b: Query, name: string)
    ensures Get(a + b, name) == if Get(a, name).Some? then Get(a, name) else Get(b, name)
  {
    if a == [] {
      assert a + b == b;
    } else {
      assert (a + b)[1..] == a[1..] + b;
      GetConcat(a[1..], b, name);
    }
  }

  /** All pairs except those with the given name, in order. */
  function RemoveAll(q: Query, name: string): (r: Query)
    ensures forall i :: 0 <= i < |r| ==> r[i].name != name
    ensures forall n :: n != name ==> Get(r, n) == Get(q, n)
  {
    if q == [] then []
    else if q[0].name == name then RemoveAll(q[1..], name)
    else [q[0]] + RemoveAll(q[1..], name)
  }

  /** Gives the first pair with the name the new value and drops the later ones. */
  function ReplaceFirst(q: Query, name: string, value: string): (r: Query)
    requires Get(q, name).Some?
    ensures Get(r, name) == Some(value)
    ensures forall n :: n != name ==> Get(r, n) == Get(q, n)
  {
    if q[0].name == name then [Param(name, value)] + RemoveAll(q[1..], name)
    else [q[0]] + ReplaceFirst(q[1..], name, value)
  }

  /**
   * `set(name, value)`: when a pair with the name exists, the first one takes
   * the value and the others are removed; otherwise the pair is appended.
   */
  function Set(q: Query, name: string, value: string): (r: Query)
    ensures Get(r, name) == Some(value)
    ensures forall n :: n != name ==> Get(r, n) == Get(q, n)
    ensures Get(q, name).None? ==> r == q + [Param(name, value)]
  {
    if Get(q, name).None? then
      GetConcat(q, [Param(name, value)], name);
      forall n | n != name
        ensures Get(q + [Param(name, value)], n) == Get(q, n)
      {
        GetConcat(q, [Param(name, value)], n);
      }
      q + [Param(name, value)]
    else
      ReplaceFirst(q, name, value)
  }

  /** `append(name, value)`: the pair goes at the end, whatever is already there. */
  function Append(q: Query, name: string, value: string): Query {
    q + [Param(name, value)]
  }

  /** The single pair `name=value` when `cond` holds, nothing otherwise. */
  function When(cond: bool, name: string, value: string): Query {
    if cond then [Param(name, value)] else []
  }

  /** Looking a name up behind an optional pair: the pair when it is emitted and named so, else the rest. */
  lemma GetWhen(cond: bool, name: string, value: string, rest: Query, n: string)
    ensures Get(When(cond, name, value) + rest, n) == if cond && n == name then Some(value) else Get(rest, n)
  {
    GetConcat(When(cond, name, value), rest, n);
  }

  function Names(q: Query): (ns: seq<string>)
    ensures |ns| == |q|
    ensures forall i :: 0 <= i < |q| ==> ns[i] == q[i].name
  {
    seq(|q|, i requires 0 <= i < |q| => q[i].name)
  }

  /** `xs` is `ys` with some elements deleted, the rest kept in order. */
  predicate Subsequence(xs: seq<string>, ys: seq<string>) {
    if xs == [] then true
    else if ys == [] then false
    else if xs[0] == ys[0] then Subsequence(xs[1..], ys[1..])
    else Subsequence(xs, ys[1..])
  }

  predicate Distinct(xs: seq<string>) {
    forall i, j :: 0 <= i < j < |xs| ==> xs[i] != xs[j]
  }

  lemma {:induction false} SubsequenceDropHead(xs: seq<string>, ys: seq<string>)
    requires xs != [] && Subsequence(xs, ys)
    ensures Subsequence(xs[1..], ys)
    decreases |ys|, 0
  {
    if xs[0] == ys[0] {
      SubsequenceExtend(xs[1..], ys[1..], ys[0]);
      assert [ys[0]] + ys[1..] == ys;
    } else {
      SubsequenceDropHead(xs, ys[1..]);
      SubsequenceExtend(xs[1..], ys[1..], ys[0]);
      assert [ys[0]] + ys[1..] == ys;
    }
  }

  lemma {:induction false} SubsequenceExtend(xs: seq<string>, ys: seq<string>, y: string)
    requires Subsequence(xs, ys)
    ensures Subsequence(xs, [y] + ys)
    decreases |ys|, 1
  {
    assert ([y] + ys)[1..] == ys;
    if xs != [] && xs[0] == y {
      SubsequenceDropHead(xs, ys);
    }
  }

  /** Emitting an optional pair in front keeps the names a subsequence of the extended order. */
  lemma WhenSubsequence(cond: bool, name: string, value: string, rest: Query, order: seq<string>)
    requires Subsequence(Names(rest), order)
    ensures Subsequence(Names(When(cond, name, value) + rest), [name] + order)
  {
    var q := When(cond, name, value) + rest;
    assert ([name] + order)[1..] == order;
    if cond {
      assert Names(q)[1..] == Names(rest);
    } else {
      assert q == rest;
      SubsequenceExtend(Names(rest), order, name);
    }
  }

  /** A subsequence of a list without repetitions has none either, and is no longer. */
  lemma {:induction false} SubsequenceOfDistinct(xs: seq<string>, ys: seq<string>)
    requires Subsequence(xs, ys) && Distinct(ys)
    ensures Distinct(xs) && |xs| <= |ys|
  {
    if xs != [] {
      if xs[0] == ys[0] {
        SubsequenceOfDistinct(xs[1..], ys[1..]);
        SubsequenceMembers(xs[1..], ys[1..]);
      } else {
        SubsequenceOfDistinct(xs, ys[1..]);
      }
    }
  }

  lemma {:induction false} SubsequenceMembers(xs: seq<string>, ys: seq<string>)
    requires Subsequence(xs, ys)
    ensures forall i :: 0 <= i < |xs| ==> xs[i] in ys
  {
    if xs != [] {
      if xs[0] == ys[0] {
        SubsequenceMembers(xs[1..], ys[1..]);
      } else {
        SubsequenceMembers(xs, ys[1..]);
      }
    }
  }

  function PairText(p: Param): string {
    p.name + "=" + p.value
  }

  /** `toString()`, without percent-encoding: pairs joined by '&'. */
  function Text(q: Query): (t: string)
    ensures t == "" <==> q == []
  {
    if q == [] then ""
    else if |q| == 1 then PairText(q[0])
    else PairText(q[0]) + "&" + Text(q[1..])
  }
}
