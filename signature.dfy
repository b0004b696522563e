/** The request signature used by the merchandise endpoints: the SHA-256
    hex digest of every defined parameter value, stringified and sorted,
    followed by the client secret. The digest itself is kept symbolic. */
module Signature {
  import opened Wrappers
  import opened Decimal
  import opened Text
  import opened Values

  /** The hex SHA-256 digest of a string, kept as its preimage. */
  datatype Digest = Sha256Hex(preimage: string)

  /** `Object.values(flattenObject(params))`: nested objects are walked in
      field order; every other value is a leaf. */
  function Leaves(fields: seq<Field>): seq<Value>
    decreases fields, 1
  {
    if fields == [] then [] else LeavesOf(fields[0].value) + Leaves(fields[1..])
  }

  function LeavesOf(v: Value): seq<Value>
    decreases v, 0
  {
    match v
    case Obj(fs) => Leaves(fs)
    case _ => [v]
  }

  lemma {:induction false} LeavesAppend(a: seq<Field>, b: seq<Field>)
    ensures Leaves(a + b) == Leaves(a) + Leaves(b)
  {
    if a == [] {
      assert a + b == b;
    } else {
      assert (a + b)[0] == a[0];
      assert (a + b)[1..] == a[1..] + b;
      LeavesAppend(a[1..], b);
    }
  }

  /** `String(v)` for the values a parameter can hold. */
  function StringOf(v: Value): string
    decreases v, 0
  {
    match v
    case Undefined => "undefined"
    case Null => "null"
    case Str(s) => s
    case Num(n) => IntToDecimal(n)
    case Bool(b) => if b then "true" else "false"
    case Arr(items) => Join(seq(|items|, i requires 0 <= i < |items| => ItemString(items[i])), ",")
    case Obj(_) => "[object Object]"
  }

  /** An array element as `Array.prototype.join` renders it: undefined and
      null as the empty string. */
  function ItemString(v: Value): string
    decreases v, 1
  {
    if v.Undefined? || v.Null? then "" else StringOf(v)
  }

  /** What one leaf adds: nothing when undefined, else its string. */
  function Contribution(v: Value): (r: seq<string>)
    ensures |r| <= 1
  {
    if v.Undefined? then [] else [StringOf(v)]
  }

  /** The defined leaves, stringified, in their original order. */
  function DefinedStrings(vs: seq<Value>): (r: seq<string>)
    ensures |r| <= |vs|
  {
    if vs == [] then [] else Contribution(vs[0]) + DefinedStrings(vs[1..])
  }

  lemma {:induction false} DefinedStringsAppend(a: seq<Value>, b: seq<Value>)
    ensures DefinedStrings(a + b) == DefinedStrings(a) + DefinedStrings(b)
  {
    if a == [] {
      assert a + b == b;
    } else {
      assert (a + b)[0] == a[0];
      assert (a + b)[1..] == a[1..] + b;
      DefinedStringsAppend(a[1..], b);
    }
  }

  // ---- ordering: the default sort compares strings character by character

  predicate LexLe(a: string, b: string)
    decreases |a|
  {
    |a| == 0 || (|b| > 0 && (a[0] < b[0] || (a[0] == b[0] && LexLe(a[1..], b[1..]))))
  }

  lemma {:induction false} LexLeTotal(a: string, b: string)
    ensures LexLe(a, b) || LexLe(b, a)
    decreases |a|
  {
    if |a| > 0 && |b| > 0 && a[0] == b[0] {
      LexLeTotal(a[1..], b[1..]);
    }
  }

  lemma {:induction false} LexLeAntisymmetric(a: string, b: string)
    requires LexLe(a, b) && LexLe(b, a)
    ensures a == b
    decreases |a|
  {
    if |a| > 0 {
      LexLeAntisymmetric(a[1..], b[1..]);
      assert a == [a[0]] + a[1..];
      assert b == [b[0]] + b[1..];
    }
  }

  lemma {:induction false} LexLeTransitive(a: string, b: string, c: string)
    requires LexLe(a, b) && LexLe(b, c)
    ensures LexLe(a, c)
    decreases |a|
  {
    if |a| > 0 && a[0] == b[0] && b[0] == c[0] {
      LexLeTransitive(a[1..], b[1..], c[1..]);
    }
  }

  predicate Sorted(xs: seq<string>)
  {
    forall i, j :: 0 <= i < j < |xs| ==> LexLe(xs[i], xs[j])
  }

  function Insert(x: string, xs: seq<string>): (r: seq<string>)
    ensures multiset(r) == multiset(xs) + multiset{x}
    ensures |r| == |xs| + 1
  {
    if xs == [] then [x]
    else if LexLe(x, xs[0]) then [x] + xs
    else
      assert xs == [xs[0]] + xs[1..];
      [xs[0]] + Insert(x, xs[1..])
  }

  /** A string below every element of a sorted list can be put in front. */
  lemma ConsSorted(h: string, t: seq<string>)
    requires Sorted(t)
    requires forall k :: 0 <= k < |t| ==> LexLe(h, t[k])
    ensures Sorted([h] + t)
  {
    var r := [h] + t;
    forall i, j | 0 <= i < j < |r|
      ensures LexLe(r[i], r[j])
    {
      if i == 0 {
        assert r[j] == t[j - 1];
      } else {
        assert r[i] == t[i - 1] && r[j] == t[j - 1];
      }
    }
  }

  /** A lower bound of x and of every element of xs bounds the insertion. */
  lemma InsertLowerBound(y: string, x: string, xs: seq<string>)
    requires LexLe(y, x)
    requires forall k :: 0 <= k < |xs| ==> LexLe(y, xs[k])
    ensures forall k :: 0 <= k < |Insert(x, xs)| ==> LexLe(y, Insert(x, xs)[k])
  {
    var r := Insert(x, xs);
    forall k | 0 <= k < |r|
      ensures LexLe(y, r[k])
    {
      assert r[k] in multiset(r);
      if r[k] != x {
        assert r[k] in multiset(xs);
        var m :| 0 <= m < |xs| && xs[m] == r[k];
      }
    }
  }

  lemma {:induction false} InsertSorted(x: string, xs: seq<string>)
    requires Sorted(xs)
    ensures Sorted(Insert(x, xs))
  {
    if xs != [] && LexLe(x, xs[0]) {
      forall k | 0 <= k < |xs|
        ensures LexLe(x, xs[k])
      {
        if k > 0 {
          LexLeTransitive(x, xs[0], xs[k]);
        }
      }
      ConsSorted(x, xs);
    } else if xs != [] {
      LexLeTotal(x, xs[0]);
      InsertSorted(x, xs[1..]);
      forall k | 0 <= k < |xs[1..]|
        ensures LexLe(xs[0], xs[1..][k])
      {
        assert xs[1..][k] == xs[k + 1];
      }
      InsertLowerBound(xs[0], x, xs[1..]);
      ConsSorted(xs[0], Insert(x, xs[1..]));
    }
  }

  /** The sort of the source, written as an insertion sort. */
  function Sort(xs: seq<string>): (r: seq<string>)
    ensures multiset(r) == multiset(xs)
  {
    if xs == [] then []
    else
      assert xs == [xs[0]] + xs[1..];
      Insert(xs[0], Sort(xs[1..]))
  }

  lemma {:induction false} SortSorted(xs: seq<string>)
    ensures Sorted(Sort(xs))
  {
    if xs != [] {
      SortSorted(xs[1..]);
      InsertSorted(xs[0], Sort(xs[1..]));
    }
  }

  lemma SortedTail(xs: seq<string>)
    requires Sorted(xs) && xs != []
    ensures Sorted(xs[1..])
  {
    forall i, j | 0 <= i < j < |xs[1..]|
      ensures LexLe(xs[1..][i], xs[1..][j])
    {
      assert xs[1..][i] == xs[i + 1] && xs[1..][j] == xs[j + 1];
    }
  }

  /** Two sorted arrangements of the same non-empty strings start alike. */
  lemma SortedSameHead(a: seq<string>, b: seq<string>)
    requires Sorted(a) && Sorted(b) && multiset(a) == multiset(b) && a != []
    ensures b != [] && a[0] == b[0]
  {
    assert a[0] in multiset(b);
    var j :| 0 <= j < |b| && b[j] == a[0];
    if j > 0 {
      assert LexLe(b[0], a[0]);
      assert b[0] in multiset(a);
      var i :| 0 <= i < |a| && a[i] == b[0];
      if i > 0 {
        assert LexLe(a[0], b[0]);
        LexLeAntisymmetric(a[0], b[0]);
      }
    }
  }

  /** Two sorted arrangements of the same strings are the same sequence. */
  lemma {:induction false} SortedUnique(a: seq<string>, b: seq<string>)
    requires Sorted(a) && Sorted(b) && multiset(a) == multiset(b)
    ensures a == b
  {
    if a == [] {
      assert |b| == |multiset(b)| == 0;
    } else {
      SortedSameHead(a, b);
      FirstRemovedMultiset(a);
      FirstRemovedMultiset(b);
      SortedTail(a);
      SortedTail(b);
      SortedUnique(a[1..], b[1..]);
      assert a == [a[0]] + a[1..];
      assert b == [b[0]] + b[1..];
    }
  }

  /** Sorting depends only on which strings there are, not on their order. */
  lemma SortIgnoresOrder(a: seq<string>, b: seq<string>)
    requires multiset(a) == multiset(b)
    ensures Sort(a) == Sort(b)
  {
    SortSorted(a);
    SortSorted(b);
    SortedUnique(Sort(a), Sort(b));
  }

  /** The hashed string: the sorted defined values, concatenated, then the
      secret with no separator. */
  function Preimage(params: seq<Field>, secret: string): (p: string)
    ensures |p| >= |secret| && p[|p| - |secret|..] == secret
  {
    Concat(Sort(DefinedStrings(Leaves(params)))) + secret
  }

  function CreateSignature(params: seq<Field>, secret: string): (d: Digest)
    ensures d.preimage == Preimage(params, secret)
  {
    Sha256Hex(Preimage(params, secret))
  }

  /** Reordering the parameters does not change the signature. */
  lemma {:induction false} SignatureIgnoresFieldOrder(p: seq<Field>, q: seq<Field>, secret: string)
    requires multiset(p) == multiset(q)
    ensures CreateSignature(p, secret) == CreateSignature(q, secret)
  {
    LeavesPermutation(p, q);
    DefinedStringsPermutation(Leaves(p), Leaves(q));
    SortIgnoresOrder(DefinedStrings(Leaves(p)), DefinedStrings(Leaves(q)));
  }

  lemma {:induction false} RemoveAtMultiset<X>(q: seq<X>, k: nat)
    requires k < |q|
    ensures multiset(q[..k] + q[k + 1..]) == multiset(q) - multiset{q[k]}
  {
    assert q == q[..k] + [q[k]] + q[k + 1..];
    assert multiset(q) == multiset(q[..k]) + multiset{q[k]} + multiset(q[k + 1..]);
  }

  lemma {:induction false} FirstRemovedMultiset<X>(p: seq<X>)
    requires p != []
    ensures multiset(p[1..]) == multiset(p) - multiset{p[0]}
  {
    assert p == [p[0]] + p[1..];
    assert multiset(p) == multiset{p[0]} + multiset(p[1..]);
  }

  /** Taking out the k-th field takes out exactly its leaves. */
  lemma {:induction false} LeavesRemove(q: seq<Field>, k: nat)
    requires k < |q|
    ensures multiset(Leaves(q)) == multiset(LeavesOf(q[k].value)) + multiset(Leaves(q[..k] + q[k + 1..]))
  {
    var before, x, after := q[..k], [q[k]], q[k + 1..];
    assert q == (before + x) + after;
    LeavesAppend(before + x, after);
    LeavesAppend(before, x);
    LeavesAppend(before, after);
    assert x[1..] == [];
    assert Leaves(x) == LeavesOf(q[k].value) + Leaves([]);
  }

  lemma {:induction false} LeavesPermutation(p: seq<Field>, q: seq<Field>)
    requires multiset(p) == multiset(q)
    ensures multiset(Leaves(p)) == multiset(Leaves(q))
  {
    if p != [] {
      assert p[0] in multiset(q);
      var k :| 0 <= k < |q| && q[k] == p[0];
      RemoveAtMultiset(q, k);
      FirstRemovedMultiset(p);
      LeavesPermutation(p[1..], q[..k] + q[k + 1..]);
      LeavesRemove(q, k);
    }
  }

  lemma {:induction false} DefinedStringsRemove(b: seq<Value>, k: nat)
    requires k < |b|
    ensures multiset(DefinedStrings(b)) == multiset(Contribution(b[k])) + multiset(DefinedStrings(b[..k] + b[k + 1..]))
  {
    var before, x, after := b[..k], [b[k]], b[k + 1..];
    assert b == (before + x) + after;
    DefinedStringsAppend(before + x, after);
    DefinedStringsAppend(before, x);
    DefinedStringsAppend(before, after);
    assert x[1..] == [];
    assert DefinedStrings(x) == Contribution(b[k]) + DefinedStrings([]);
  }

  lemma {:induction false} DefinedStringsPermutation(a: seq<Value>, b: seq<Value>)
    requires multiset(a) == multiset(b)
    ensures multiset(DefinedStrings(a)) == multiset(DefinedStrings(b))
  {
    if a != [] {
      assert a[0] in multiset(b);
      var k :| 0 <= k < |b| && b[k] == a[0];
      RemoveAtMultiset(b, k);
      FirstRemovedMultiset(a);
      DefinedStringsPermutation(a[1..], b[..k] + b[k + 1..]);
      DefinedStringsRemove(b, k);
    }
  }

  /** An undefined value adds no string. */
  lemma UndefinedAddsNothing()
    ensures DefinedStrings([Undefined]) == []
  {
    assert [Undefined][1..] == [];
  }

  /** An undefined value between two runs of values adds no string. */
  lemma DefinedStringsSkipUndefined(x: seq<Value>, y: seq<Value>)
    ensures DefinedStrings(x + [Undefined] + y) == DefinedStrings(x + y)
  {
    var dx, dy := DefinedStrings(x), DefinedStrings(y);
    UndefinedAddsNothing();
    DefinedStringsAppend(x, [Undefined]);
    assert DefinedStrings(x + [Undefined]) == dx + [];
    DefinedStringsAppend(x + [Undefined], y);
    DefinedStringsAppend(x, y);
    assert dx + [] == dx;
  }

  /** An undefined field flattens to one undefined leaf. */
  lemma LeavesAroundUndefined(a: seq<Field>, b: seq<Field>, key: string)
    ensures Leaves(a + [Field(key, Undefined)] + b) == Leaves(a) + [Undefined] + Leaves(b)
    ensures Leaves(a + b) == Leaves(a) + Leaves(b)
  {
    var u := [Field(key, Undefined)];
    assert u[1..] == [];
    assert Leaves(u) == [Undefined] + Leaves([]);
    LeavesAppend(a + u, b);
    LeavesAppend(a, u);
    LeavesAppend(a, b);
  }

  /** A field whose value is undefined contributes nothing. */
  lemma UndefinedFieldIgnored(a: seq<Field>, b: seq<Field>, key: string, secret: string)
    ensures CreateSignature(a + [Field(key, Undefined)] + b, secret) == CreateSignature(a + b, secret)
  {
    LeavesAroundUndefined(a, b, key);
    DefinedStringsSkipUndefined(Leaves(a), Leaves(b));
    var withU := DefinedStrings(Leaves(a + [Field(key, Undefined)] + b));
    assert withU == DefinedStrings(Leaves(a + b));
  }

  /** A null field contributes the string "null". */
  lemma NullFieldSigned(key: string, secret: string)
    ensures Preimage([Field(key, Null)], secret) == "null" + secret
  {
    var fs := [Field(key, Null)];
    assert Leaves(fs) == [Null];
    assert DefinedStrings([Null]) == ["null"];
    assert Sort(["null"]) == ["null"];
    assert Concat(["null"]) == "null";
  }
}
