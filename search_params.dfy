/**
 * The search-parameter record of a FetchQuery (`FetchQueryParams`,
 * src/fetch-query/fetch-query.ts).
 *
 * A JavaScript object whose keys are not array indices enumerates its own
 * properties in insertion order, so the record is an ordered association
 * list whose keys are distinct.
 */
module SearchParams {
  import opened Outcomes

  /** `string | number | boolean | null | undefined`; numbers are integers or NaN. */
  datatype Value = Str(s: string) | Num(n: int) | NaN | Bool(b: bool) | Null | Undefined

  type Entry = (string, Value)

  function Keys(es: seq<Entry>): (ks: seq<string>)
    ensures |ks| == |es|
    ensures forall i | 0 <= i < |es| :: ks[i] == es[i].0
  {
    if es == [] then [] else [es[0].0] + Keys(es[1..])
  }

  predicate Distinct(ks: seq<string>) {
    forall i, j | 0 <= i < j < |ks| :: ks[i] != ks[j]
  }

  /** A parameter record: no key occurs twice. */
  type Params = es: seq<Entry> | Distinct(Keys(es)) witness []

  /** `record[k]`: the value stored under `k`, `None` when the key is absent. */
  function Lookup(es: seq<Entry>, k: string): (r: Option<Value>)
    ensures r.Some? ==> (k, r.value) in es
  {
    if es == [] then None
    else if es[0].0 == k then Some(es[0].1)
    else Lookup(es[1..], k)
  }

  lemma {:induction false} LookupMissing(es: seq<Entry>, k: string)
    ensures Lookup(es, k).None? <==> k !in Keys(es)
  {
    if es != [] {
      LookupMissing(es[1..], k);
    }
  }

  lemma {:induction false} LookupAt(ps: Params, i: nat)
    requires i < |ps|
    ensures Lookup(ps, ps[i].0) == Some(ps[i].1)
  {
    if i > 0 {
      assert Keys(ps)[0] != Keys(ps)[i];
      var tail: Params := ps[1..];
      LookupAt(tail, i - 1);
    }
  }

  /**
   * Assigns one property of an object: a key already present keeps its
   * position and takes the new value; a new key is appended.
   */
  function Put(es: seq<Entry>, k: string, v: Value): (r: seq<Entry>)
    ensures Keys(r) == if k in Keys(es) then Keys(es) else Keys(es) + [k]
    ensures forall k' :: Lookup(r, k') == if k' == k then Some(v) else Lookup(es, k')
  {
    if es == [] then [(k, v)]
    else if es[0].0 == k then [(k, v)] + es[1..]
    else
      var rest := Put(es[1..], k, v);
      assert ([es[0]] + rest)[1..] == rest;
      [es[0]] + rest
  }

  lemma PutKeepsDistinct(ps: Params, k: string, v: Value)
    ensures Distinct(Keys(Put(ps, k, v)))
  {
    var ks := Keys(ps);
    if k !in ks {
      assert forall i | 0 <= i < |ks| :: (ks + [k])[i] == ks[i];
    }
  }

  /** `{ ...base, ...partial }`: the properties of `partial`, in order, assigned onto a copy of `base`. */
  function Merge(base: Params, partial: Params): (r: Params)
    ensures forall k :: Lookup(r, k).Some? <==> Lookup(base, k).Some? || Lookup(partial, k).Some?
    decreases |partial|
  {
    if partial == [] then base
    else
      PutKeepsDistinct(base, partial[0].0, partial[0].1);
      var next: Params := Put(base, partial[0].0, partial[0].1);
      var rest: Params := partial[1..];
      Merge(next, rest)
  }

  /** The keys of `ks` not already in `existing`, in their order in `ks`. */
  function NewKeys(ks: seq<string>, existing: seq<string>): seq<string>
  {
    if ks == [] then []
    else (if ks[0] in existing then [] else [ks[0]]) + NewKeys(ks[1..], existing)
  }

  lemma {:induction false} NewKeysIgnore(ks: seq<string>, existing: seq<string>, k: string)
    requires k !in ks
    ensures NewKeys(ks, existing + [k]) == NewKeys(ks, existing)
  {
    if ks != [] {
      NewKeysIgnore(ks[1..], existing, k);
    }
  }

  /** After a merge, a key of `partial` maps to `partial`'s value and every other key keeps its old value. */
  lemma {:induction false} MergeLookup(base: Params, partial: Params, k: string)
    ensures Lookup(Merge(base, partial), k)
         == if Lookup(partial, k).Some? then Lookup(partial, k) else Lookup(base, k)
    decreases |partial|
  {
    if partial != [] {
      var (k0, v0) := partial[0];
      PutKeepsDistinct(base, k0, v0);
      var next: Params := Put(base, k0, v0);
      var rest: Params := partial[1..];
      MergeLookup(next, rest, k);
      if k == k0 {
        assert Keys(partial) == [k0] + Keys(rest);
        LookupMissing(rest, k0);
      }
    }
  }

  lemma ConcatAssoc<X>(a: seq<X>, b: seq<X>, c: seq<X>)
    ensures a + b + c == a + (b + c)
  {
  }

  /** After a merge, the old keys keep their positions and the new keys of `partial` follow in order. */
  lemma {:induction false} MergeKeys(base: Params, partial: Params)
    ensures Keys(Merge(base, partial)) == Keys(base) + NewKeys(Keys(partial), Keys(base))
    decreases |partial|
  {
    if partial != [] {
      var (k0, v0) := partial[0];
      PutKeepsDistinct(base, k0, v0);
      var next: Params := Put(base, k0, v0);
      var rest: Params := partial[1..];
      assert Merge(base, partial) == Merge(next, rest);
      var ks := Keys(partial);
      assert ks == [k0] + Keys(rest) && ks[1..] == Keys(rest);
      assert k0 !in Keys(rest);
      MergeKeys(next, rest);
      var added := NewKeys(Keys(rest), Keys(base));
      if k0 in Keys(base) {
        assert Keys(next) == Keys(base);
        assert NewKeys(ks, Keys(base)) == added;
      } else {
        assert Keys(next) == Keys(base) + [k0];
        NewKeysIgnore(Keys(rest), Keys(base), k0);
        assert NewKeys(ks, Keys(base)) == [k0] + added;
        ConcatAssoc(Keys(base), [k0], added);
      }
    }
  }

  /** Digits of a natural number in base 10, most significant first. */
  function NatToDecimal(n: nat): string
    decreases n
  {
    if n < 10 then ["0123456789"[n]]
    else NatToDecimal(n / 10) + ["0123456789"[n % 10]]
  }

  /** `Number.prototype.toString()` on an integer. */
  function IntToDecimal(n: int): string
  {
    if n < 0 then "-" + NatToDecimal(-n) else NatToDecimal(n)
  }

  function DigitValue(c: char): nat
  {
    if '0' <= c <= '9' then (c as int - '0' as int) else 0
  }

  /** Reads a string of decimal digits back as a natural number. */
  function ParseNat(s: string): nat
  {
    if s == [] then 0 else ParseNat(s[..|s| - 1]) * 10 + DigitValue(s[|s| - 1])
  }

  function ParseInt(s: string): int
  {
    if |s| > 0 && s[0] == '-' then -(ParseNat(s[1..]) as int) else ParseNat(s) as int
  }

  lemma {:induction false} NatDecimalRoundTrip(n: nat)
    ensures |NatToDecimal(n)| > 0 && NatToDecimal(n)[0] != '-'
    ensures ParseNat(NatToDecimal(n)) == n
  {
    var s := NatToDecimal(n);
    if n >= 10 {
      NatDecimalRoundTrip(n / 10);
      assert s[..|s| - 1] == NatToDecimal(n / 10);
    } else {
      assert s[..|s| - 1] == [];
    }
  }

  /** The decimal text of an integer reads back as that integer. */
  lemma DecimalRoundTrip(n: int)
    ensures ParseInt(IntToDecimal(n)) == n
  {
    if n < 0 {
      NegativeDecimalRoundTrip(n);
    } else {
      NatDecimalRoundTrip(n);
    }
  }

  lemma NegativeDecimalRoundTrip(n: int)
    requires n < 0
    ensures ParseInt(IntToDecimal(n)) == n
  {
    var digits := NatToDecimal(-n);
    var s := "-" + digits;
    NatDecimalRoundTrip(-n);
    assert s[1..] == digits;
  }

  /** Values that `prepareSearchParams` sends: everything but `null` and `undefined`. */
  predicate Defined(v: Value) {
    !v.Null? && !v.Undefined?
  }

  /** `value.toString()` for a value that is sent. */
  function ToText(v: Value): (r: string)
    requires Defined(v)
    ensures v.Str? ==> r == v.s
    ensures v.Num? ==> ParseInt(r) == v.n
  {
    match v
    case Str(s) => s
    case Num(n) => DecimalRoundTrip(n); IntToDecimal(n)
    case NaN => "NaN"
    case Bool(b) => if b then "true" else "false"
  }

  /** The `key=value` pair one entry contributes to the query string, if any. */
  function PairOf(e: Entry): seq<(string, string)>
  {
    if Defined(e.1) then [(e.0, ToText(e.1))] else []
  }

  /**
   * The name-value list of the `URLSearchParams` built by `prepareSearchParams`;
   * its percent-encoding into a query string is not modelled.
   */
  function Serialized(es: seq<Entry>): (r: seq<(string, string)>)
    ensures |r| <= |es|
  {
    if es == [] then [] else Serialized(es[..|es| - 1]) + PairOf(es[|es| - 1])
  }

  /** Serialising a record is serialising its parts in order, one entry at a time. */
  lemma {:induction false} SerializedConcat(a: seq<Entry>, b: seq<Entry>)
    ensures Serialized(a + b) == Serialized(a) + Serialized(b)
    ensures Serialized([]) == [] && (|b| == 1 ==> Serialized(b) == PairOf(b[0]))
    decreases |b|
  {
    if |b| == 1 {
      assert b[..0] == [];
    }
    if b == [] {
      assert a + b == a;
    } else {
      var b' := b[..|b| - 1];
      assert (a + b)[..|a + b| - 1] == a + b';
      assert (a + b)[|a + b| - 1] == b[|b| - 1];
      SerializedConcat(a, b');
    }
  }

  lemma SerializedFront(es: seq<Entry>)
    requires es != []
    ensures Serialized(es) == PairOf(es[0]) + Serialized(es[1..])
  {
    SerializedConcat([es[0]], es[1..]);
    SerializedConcat([], [es[0]]);
    assert [es[0]] + es[1..] == es;
  }

  /**
   * The pair `(k, s)` is sent exactly when the record holds a defined value
   * under `k` whose text is `s`.
   */
  lemma {:induction false} SerializedMembership(ps: Params, k: string, s: string)
    ensures (k, s) in Serialized(ps)
        <==> Lookup(ps, k).Some? && Defined(Lookup(ps, k).value) && ToText(Lookup(ps, k).value) == s
  {
    if ps != [] {
      SerializedFront(ps);
      var rest: Params := ps[1..];
      assert Keys(ps) == [ps[0].0] + Keys(rest);
      SerializedMembership(rest, k, s);
      if k == ps[0].0 {
        LookupMissing(rest, k);
      }
    }
  }

  /** Every key that is sent is a key of the record. */
  lemma {:induction false} SerializedKeysFromRecord(es: seq<Entry>, i: nat)
    requires i < |Serialized(es)|
    ensures Serialized(es)[i].0 in Keys(es)
  {
    var last := |es| - 1;
    var init := es[..last];
    assert Keys(es) == Keys(init) + [es[last].0];
    if i < |Serialized(init)| {
      SerializedKeysFromRecord(init, i);
    }
  }

  /** No key is sent twice. */
  lemma {:induction false} SerializedKeysDistinct(ps: Params)
    ensures forall i, j | 0 <= i < j < |Serialized(ps)| :: Serialized(ps)[i].0 != Serialized(ps)[j].0
  {
    if ps != [] {
      SerializedFront(ps);
      var rest: Params := ps[1..];
      assert Keys(ps) == [ps[0].0] + Keys(rest);
      SerializedKeysDistinct(rest);
      var head := PairOf(ps[0]);
      forall j | 0 <= j < |Serialized(rest)|
        ensures Serialized(rest)[j].0 != ps[0].0
      {
        SerializedKeysFromRecord(rest, j);
      }
    }
  }
}
