/** String helpers shared by the request builders and messages. */
module Text {
  /** `parts.join(sep)`. */
  function Join(parts: seq<string>, sep: string): (r: string)
    ensures parts == [] ==> r == ""
    ensures |parts| == 1 ==> r == parts[0]
  {
    if parts == [] then ""
    else if |parts| == 1 then parts[0]
    else parts[0] + sep + Join(parts[1..], sep)
  }

  /** `parts.join('')`. */
  function Concat(parts: seq<string>): string
  {
    if parts == [] then "" else parts[0] + Concat(parts[1..])
  }

  lemma {:induction false} ConcatAppend(a: seq<string>, b: seq<string>)
    ensures Concat(a + b) == Concat(a) + Concat(b)
  {
    if a == [] {
      assert a + b == b;
    } else {
      assert (a + b)[0] == a[0];
      assert (a + b)[1..] == a[1..] + b;
      ConcatAppend(a[1..], b);
      var x, y, z := a[0], Concat(a[1..]), Concat(b);
      assert x + (y + z) == (x + y) + z;
    }
  }

  predicate IsPrefix(p: string, s: string)
  {
    |p| <= |s| && s[..|p|] == p
  }
}

/** Plain JavaScript values, as far as the SDK builds them into request
    bodies: objects keep their keys in insertion order. */
module Values {
  datatype Value =
    | Undefined
    | Null
    | Str(s: string)
    | Num(n: int)
    | Bool(b: bool)
    | Arr(items: seq<Value>)
    | Obj(fields: seq<Field>)

  datatype Field = Field(key: string, value: Value)

  function Keys(fields: seq<Field>): (ks: seq<string>)
    ensures |ks| == |fields|
    ensures forall i :: 0 <= i < |fields| ==> ks[i] == fields[i].key
  {
    if fields == [] then [] else [fields[0].key] + Keys(fields[1..])
  }

  /** The value an object literal holds under `key` (its last occurrence,
      as a later property of the same name replaces an earlier one). */
  function Lookup(fields: seq<Field>, key: string): Value
  {
    if fields == [] then Undefined
    else if fields[|fields| - 1].key == key then fields[|fields| - 1].value
    else Lookup(fields[..|fields| - 1], key)
  }

  /** A key that no later field repeats reads back its own value. */
  lemma {:induction false} LookupLastOccurrence(fields: seq<Field>, i: nat)
    requires i < |fields|
    requires forall j :: i < j < |fields| ==> fields[j].key != fields[i].key
    ensures Lookup(fields, fields[i].key) == fields[i].value
  {
    if i < |fields| - 1 {
      var init := fields[..|fields| - 1];
      assert init[i] == fields[i];
      LookupLastOccurrence(init, i);
    }
  }

  /** Two keys told apart by their length or by one of their first two
      characters. */
  predicate Apart(a: string, b: string)
  {
    |a| != |b| || (|a| > 0 && a[0] != b[0]) || (|a| > 1 && a[1] != b[1])
  }

  /** A key that every field's key is Apart from is not among the keys. */
  lemma KeyApart(fields: seq<Field>, k: string)
    requires forall i :: 0 <= i < |fields| ==> Apart(fields[i].key, k)
    ensures k !in Keys(fields)
  {
  }
}
