/** User records and their notification preferences. Preferences are a JavaScript
    object from channel name to a JSON value; only its own keys, their iteration
    order and their values matter here, so it is an ordered list of distinct keys. */
module Users {
  import opened Js

  /** The keys of an object, in iteration order. */
  function Keys(p: seq<(string, Json)>): (ks: seq<string>)
    ensures |ks| == |p|
    ensures forall i :: 0 <= i < |p| ==> ks[i] == p[i].0
  {
    seq(|p|, i requires 0 <= i < |p| => p[i].0)
  }

  predicate DistinctKeys(p: seq<(string, Json)>) {
    forall i, j :: 0 <= i < j < |p| ==> p[i].0 != p[j].0
  }

  /** A preferences object: each key occurs once. */
  type Prefs = p: seq<(string, Json)> | DistinctKeys(p) witness []

  /** `obj[k]` for an own key `k`; `None` stands for `undefined`. */
  function Lookup(p: seq<(string, Json)>, k: string): (v: Option<Json>)
    ensures v.Some? <==> k in Keys(p)
  {
    if |p| == 0 then None
    else if p[0].0 == k then Some(p[0].1)
    else
      assert Keys(p) == [p[0].0] + Keys(p[1..]);
      Lookup(p[1..], k)
  }

  /** In an object with distinct keys, the value found for a key is the one stored with it. */
  lemma {:induction false} LookupAt(p: seq<(string, Json)>, i: nat)
    requires DistinctKeys(p) && i < |p|
    ensures Lookup(p, p[i].0) == Some(p[i].1)
  {
    if i > 0 {
      LookupAt(p[1..], i - 1);
    }
  }

  lemma {:induction false} LookupAppend(x: seq<(string, Json)>, y: seq<(string, Json)>, k: string)
    ensures Lookup(x + y, k) == if Lookup(x, k).Some? then Lookup(x, k) else Lookup(y, k)
    decreases |x|
  {
    if |x| == 0 {
      assert x + y == y;
    } else {
      assert (x + y)[1..] == x[1..] + y;
      LookupAppend(x[1..], y, k);
    }
  }

  /** The entries of `a`, each with its value replaced by `b`'s when `b` has the key. */
  function Override(a: seq<(string, Json)>, b: seq<(string, Json)>): (r: seq<(string, Json)>)
    ensures |r| == |a|
    ensures forall i :: 0 <= i < |a| ==> r[i].0 == a[i].0
  {
    seq(|a|, i requires 0 <= i < |a| => (a[i].0, Lookup(b, a[i].0).GetOr(a[i].1)))
  }

  lemma {:induction false} LookupOverride(a: seq<(string, Json)>, b: seq<(string, Json)>, k: string)
    ensures Lookup(Override(a, b), k)
         == if Lookup(a, k).None? then None
            else if Lookup(b, k).Some? then Lookup(b, k)
            else Lookup(a, k)
    decreases |a|
  {
    if |a| > 0 && a[0].0 != k {
      assert Override(a, b)[1..] == Override(a[1..], b);
      LookupOverride(a[1..], b, k);
    }
  }

  lemma KeysCons(p: seq<(string, Json)>)
    requires |p| > 0
    ensures Keys(p) == [p[0].0] + Keys(p[1..])
  {
  }

  /** Dropping the first entry keeps the keys distinct, and that entry's key does
      not occur again. */
  lemma DistinctTail(p: seq<(string, Json)>)
    requires DistinctKeys(p) && |p| > 0
    ensures DistinctKeys(p[1..])
    ensures p[0].0 !in Keys(p[1..])
  {
    var t := p[1..];
    forall i, j | 0 <= i < j < |t|
      ensures t[i].0 != t[j].0
    {
      assert t[i] == p[i + 1] && t[j] == p[j + 1];
    }
    forall k | 0 <= k < |t|
      ensures Keys(t)[k] != p[0].0
    {
      assert t[k] == p[k + 1];
    }
  }

  /** Putting an entry in front of an object that lacks its key keeps the keys distinct. */
  lemma DistinctCons(x: (string, Json), p: seq<(string, Json)>)
    requires DistinctKeys(p)
    requires forall i :: 0 <= i < |p| ==> p[i].0 != x.0
    ensures DistinctKeys([x] + p)
  {
    var q := [x] + p;
    forall i, j | 0 <= i < j < |q|
      ensures q[i].0 != q[j].0
    {
      assert q[j] == p[j - 1];
      if i > 0 {
        assert q[i] == p[i - 1];
      }
    }
  }

  /** The position of a key in iteration order. */
  function KeyIndex(p: seq<(string, Json)>, k: string): (i: nat)
    requires k in Keys(p)
    ensures i < |p| && p[i].0 == k
    ensures forall j :: 0 <= j < i ==> p[j].0 != k
  {
    if p[0].0 == k then 0
    else
      KeysCons(p);
      var i := KeyIndex(p[1..], k);
      KeyIndexStep(p, k, i);
      1 + i
  }

  lemma KeyIndexStep(p: seq<(string, Json)>, k: string, i: nat)
    requires 0 < |p| && p[0].0 != k && i < |p| - 1 && p[1..][i].0 == k
    requires forall j :: 0 <= j < i ==> p[1..][j].0 != k
    ensures p[i + 1].0 == k
    ensures forall j :: 0 <= j < i + 1 ==> p[j].0 != k
  {
    forall j | 1 <= j < i + 1
      ensures p[j].0 != k
    {
      assert p[j] == p[1..][j - 1];
    }
  }

  /** Past the first entry, a key's position is one more than in the rest. */
  lemma KeyIndexTail(p: Prefs, k: string)
    requires |p| > 0 && k in Keys(p[1..])
    ensures KeyIndex(p, k) == 1 + KeyIndex(p[1..], k)
  {
    KeysCons(p);
    DistinctTail(p);
  }

  /** Every name in `cs` is a key of `p`, and they come in `p`'s iteration order. */
  predicate InKeyOrder(p: seq<(string, Json)>, cs: seq<string>) {
    && (forall i :: 0 <= i < |cs| ==> cs[i] in Keys(p))
    && forall i, j :: 0 <= i < j < |cs| ==> KeyIndex(p, cs[i]) < KeyIndex(p, cs[j])
  }

  /** Keys ordered by the entries after the first stay ordered by all the
      entries, with or without the first key in front. */
  lemma TailOrderLifts(p: Prefs, rest: seq<string>)
    requires |p| > 0 && InKeyOrder(p[1..], rest)
    ensures InKeyOrder(p, rest)
    ensures InKeyOrder(p, [p[0].0] + rest)
  {
    KeysCons(p);
    forall i | 0 <= i < |rest|
      ensures rest[i] in Keys(p) && KeyIndex(p, rest[i]) == 1 + KeyIndex(p[1..], rest[i])
    {
      KeyIndexTail(p, rest[i]);
    }
    var cs := [p[0].0] + rest;
    assert KeyIndex(p, cs[0]) == 0;
    forall i, j | 0 <= i < j < |cs|
      ensures KeyIndex(p, cs[i]) < KeyIndex(p, cs[j])
    {
      assert cs[j] == rest[j - 1];
      if i > 0 {
        assert cs[i] == rest[i - 1];
      }
    }
  }

  /** The entries of `b` whose keys `a` lacks, in `b`'s order. */
  function Added(a: seq<(string, Json)>, b: seq<(string, Json)>): (r: seq<(string, Json)>)
    ensures forall i :: 0 <= i < |r| ==> r[i].0 in Keys(b) && r[i].0 !in Keys(a)
    ensures DistinctKeys(b) ==> DistinctKeys(r)
  {
    if |b| == 0 then []
    else
      var rest := Added(a, b[1..]);
      KeysCons(b);
      if b[0].0 in Keys(a) then
        rest
      else
        AddedCons(a, b, rest);
        [b[0]] + rest
  }

  lemma AddedCons(a: seq<(string, Json)>, b: seq<(string, Json)>, rest: seq<(string, Json)>)
    requires |b| > 0 && b[0].0 !in Keys(a)
    requires forall i :: 0 <= i < |rest| ==> rest[i].0 in Keys(b[1..]) && rest[i].0 !in Keys(a)
    requires DistinctKeys(b[1..]) ==> DistinctKeys(rest)
    ensures forall i :: 0 <= i < |[b[0]] + rest| ==> ([b[0]] + rest)[i].0 in Keys(b) && ([b[0]] + rest)[i].0 !in Keys(a)
    ensures DistinctKeys(b) ==> DistinctKeys([b[0]] + rest)
  {
    KeysCons(b);
    var q := [b[0]] + rest;
    forall i | 0 <= i < |q|
      ensures q[i].0 in Keys(b) && q[i].0 !in Keys(a)
    {
      if i > 0 {
        assert q[i] == rest[i - 1];
      }
    }
    if DistinctKeys(b) {
      DistinctTail(b);
      DistinctCons(b[0], rest);
    }
  }

  /** The added entries keep the order they have in `b`. */
  lemma {:induction false} AddedInOrder(a: seq<(string, Json)>, b: Prefs)
    ensures InKeyOrder(b, Keys(Added(a, b)))
    decreases |b|
  {
    if |b| > 0 {
      DistinctTail(b);
      var rest := Added(a, b[1..]);
      AddedInOrder(a, b[1..]);
      TailOrderLifts(b, Keys(rest));
      if b[0].0 in Keys(a) {
        assert Added(a, b) == rest;
      } else {
        assert Added(a, b) == [b[0]] + rest;
        KeysPrepend(b[0], rest);
      }
    }
  }

  lemma KeysPrepend(x: (string, Json), p: seq<(string, Json)>)
    ensures Keys([x] + p) == [x.0] + Keys(p)
  {
  }

  lemma {:induction false} LookupAdded(a: seq<(string, Json)>, b: seq<(string, Json)>, k: string)
    ensures Lookup(Added(a, b), k) == if Lookup(a, k).Some? then None else Lookup(b, k)
    decreases |b|
  {
    if |b| > 0 {
      var head: seq<(string, Json)> := if b[0].0 in Keys(a) then [] else [b[0]];
      LookupAppend(head, Added(a, b[1..]), k);
      LookupAdded(a, b[1..], k);
    }
  }

  /** `{...a, ...b}`: every key of `b` takes `b`'s value, every other key of `a`
      keeps its value, the keys of `a` keep their places, and the keys only `b`
      has follow them in `b`'s order. */
  function Merge(a: Prefs, b: Prefs): (m: Prefs)
    ensures forall k :: Lookup(m, k) == if Lookup(b, k).Some? then Lookup(b, k) else Lookup(a, k)
    ensures |a| <= |m|
    ensures forall i :: 0 <= i < |a| ==> m[i].0 == a[i].0
    ensures forall i :: |a| <= i < |m| ==> m[i].0 in Keys(b) && m[i].0 !in Keys(a)
    ensures forall k :: k in Keys(b) && k !in Keys(a) ==> k in Keys(m[|a|..])
    ensures InKeyOrder(b, Keys(m[|a|..]))
  {
    var m := Override(a, b) + Added(a, b);
    MergedKeys(a, b);
    forall k
      ensures Lookup(m, k) == if Lookup(b, k).Some? then Lookup(b, k) else Lookup(a, k)
    {
      LookupAppend(Override(a, b), Added(a, b), k);
      LookupOverride(a, b, k);
      LookupAdded(a, b, k);
    }
    assert m[|a|..] == Added(a, b);
    AddedInOrder(a, b);
    forall k | k in Keys(b) && k !in Keys(a)
      ensures k in Keys(Added(a, b))
    {
      LookupAdded(a, b, k);
    }
    m
  }

  /** Merging into an object without keys gives the update itself, in its own
      order: `{...{}, ...{sms, email}}` iterates `sms` first. */
  lemma {:induction false} MergeIntoEmpty(b: Prefs)
    ensures Merge([], b) == b
  {
    AddedToNothing(b);
    assert Override([], b) == [];
  }

  lemma {:induction false} AddedToNothing(b: seq<(string, Json)>)
    ensures Added([], b) == b
    decreases |b|
  {
    if |b| > 0 {
      AddedToNothing(b[1..]);
      assert b == [b[0]] + b[1..];
    }
  }

  /** The keys of `a`, then the keys only `b` has: each key once. */
  lemma MergedKeys(a: Prefs, b: Prefs)
    ensures var m := Override(a, b) + Added(a, b);
            && DistinctKeys(m)
            && (forall i :: 0 <= i < |a| ==> m[i].0 == a[i].0)
            && (forall i :: |a| <= i < |m| ==> m[i].0 in Keys(b) && m[i].0 !in Keys(a))
  {
    var o, n := Override(a, b), Added(a, b);
    var m := o + n;
    forall i | |a| <= i < |m|
      ensures m[i] == n[i - |a|]
    {
    }
    forall i, j | 0 <= i < j < |m|
      ensures m[i].0 != m[j].0
    {
      if j < |a| {
        assert a[i].0 != a[j].0;
      } else if i < |a| {
        assert m[i].0 == Keys(a)[i];
      }
    }
  }

  /** A stored user. */
  datatype User = User(userId: int, email: string, telephone: string, preferences: Prefs)
}
