/**
 Decoded JSON values and the two pieces of JavaScript value semantics the
 identification client relies on: `Number.prototype.toString` on a
 non-negative integer clock value, and object spread `{ ...v }`.
 */
module Json {

  /** A value as `JSON.parse` returns it. Numbers are kept as reals; their
      binary floating-point form plays no part in this model. */
  datatype Json =
    | JNull
    | JBool(b: bool)
    | JNum(n: real)
    | JStr(s: string)
    | JArr(items: seq<Json>)
    | JObj(fields: map<string, Json>)

  /** The own enumerable properties of a JavaScript object. */
  type Fields = map<string, Json>

  predicate IsDigit(c: char) {
    '0' <= c <= '9'
  }

  /** A non-empty run of decimal digits: the shape of an array index key. */
  predicate IsIndexKey(k: string) {
    |k| > 0 && forall i :: 0 <= i < |k| ==> IsDigit(k[i])
  }

  function DigitChar(d: nat): (c: char)
    requires d < 10
    ensures IsDigit(c)
  {
    ('0' as int + d) as char
  }

  function DigitValue(c: char): (d: nat)
    requires IsDigit(c)
    ensures d < 10
  {
    c as int - '0' as int
  }

  /** The decimal spelling of a non-negative integer, as `toString()` writes it. */
  function NatToString(n: nat): (r: string)
    ensures IsIndexKey(r)
    ensures n < 10 <==> |r| == 1
    ensures |r| > 1 ==> r[0] != '0'
    decreases n
  {
    if n < 10 then [DigitChar(n)] else NatToString(n / 10) + [DigitChar(n % 10)]
  }

  /** Reads a run of decimal digits back as a number. */
  function ParseNat(s: string): nat
    requires forall i :: 0 <= i < |s| ==> IsDigit(s[i])
    decreases |s|
  {
    if |s| == 0 then 0 else 10 * ParseNat(s[..|s| - 1]) + DigitValue(s[|s| - 1])
  }

  /** Reading the decimal spelling of `n` gives back `n`. */
  lemma {:induction false} ParseNatToString(n: nat)
    ensures ParseNat(NatToString(n)) == n
    decreases n
  {
    if n >= 10 {
      var prefix := NatToString(n / 10);
      var s := prefix + [DigitChar(n % 10)];
      assert s[..|s| - 1] == prefix;
      ParseNatToString(n / 10);
    }
  }

  /** Distinct numbers have distinct decimal spellings. */
  lemma NatToStringInjective(m: nat, n: nat)
    requires m != n
    ensures NatToString(m) != NatToString(n)
  {
    ParseNatToString(m);
    ParseNatToString(n);
  }

  lemma IndexKeysBelowAreDistinct(n: nat)
    ensures forall i: nat :: i < n ==> NatToString(i) != NatToString(n)
  {
    forall i: nat | i < n {
      NatToStringInjective(i, n);
    }
  }

  /** The object `{ ...items }` for an array: one property per index, named by its decimal spelling. */
  function IndexEntries(items: seq<Json>): Fields
    decreases |items|
  {
    if |items| == 0 then map[]
    else IndexEntries(items[..|items| - 1])[NatToString(|items| - 1) := items[|items| - 1]]
  }

  /** Spreading an array yields only index keys, each below the array's length. */
  lemma {:induction false} IndexEntriesKeys(items: seq<Json>)
    ensures forall k :: k in IndexEntries(items) ==>
      IsIndexKey(k) && ParseNat(k) < |items| && k == NatToString(ParseNat(k))
    decreases |items|
  {
    if |items| > 0 {
      var last := |items| - 1;
      IndexEntriesKeys(items[..last]);
      ParseNatToString(last);
    }
  }

  /** Spreading an array yields a property for each index, holding its element. */
  lemma {:induction false} IndexEntriesValues(items: seq<Json>)
    ensures forall i :: 0 <= i < |items| ==>
      NatToString(i) in IndexEntries(items) && IndexEntries(items)[NatToString(i)] == items[i]
    decreases |items|
  {
    if |items| > 0 {
      var last := |items| - 1;
      var init := items[..last];
      IndexEntriesValues(init);
      IndexKeysBelowAreDistinct(last);
      var r := IndexEntries(items);
      assert r == IndexEntries(init)[NatToString(last) := items[last]];
      forall i | 0 <= i < last
        ensures NatToString(i) in r && r[NatToString(i)] == items[i]
      {
        assert init[i] == items[i];
        assert NatToString(i) in IndexEntries(init);
      }
    }
  }

  /** The characters of a string as one-character strings, which is what spreading a string enumerates. */
  function Characters(s: string): (r: seq<Json>)
    ensures |r| == |s|
    ensures forall i :: 0 <= i < |s| ==> r[i] == JStr([s[i]])
  {
    seq(|s|, i requires 0 <= i < |s| => JStr([s[i]]))
  }

  /** The own enumerable properties `{ ...v }` copies out of a decoded value:
      an object's fields, the indices of an array or a string, and nothing
      for null, booleans and numbers. */
  function Spread(v: Json): (r: Fields)
    ensures v.JObj? ==> r == v.fields
    ensures !v.JObj? ==> forall k :: k in r ==> IsIndexKey(k)
  {
    match v
    case JObj(fields) => fields
    case JArr(items) =>
      IndexEntriesKeys(items);
      IndexEntries(items)
    case JStr(s) =>
      IndexEntriesKeys(Characters(s));
      IndexEntries(Characters(s))
    case _ => map[]
  }
}
