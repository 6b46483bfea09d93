/** The JavaScript values and string operations the build pipeline relies on:
    nullable values, `indexOf`, `replace` with a string pattern, `Array.prototype.join`
    and the decimal rendering of integers. */
module Js {

  /** A value that may be `null` or `undefined` in the source. */
  datatype Option<+T> = None | Some(value: T) {
    function GetOr(default: T): T {
      match this
      case Some(v) => v
      case None => default
    }
  }

  /** An operation that either yields a value or dies with a JavaScript exception. */
  datatype Result<+T> = Success(value: T) | Failure(error: string)

  /** JavaScript truthiness of a string that may be undefined: `undefined` and `''` are falsy. */
  predicate Truthy(s: Option<string>) {
    s.Some? && |s.value| > 0
  }

  /** The string JavaScript produces when a nullable string is concatenated: `null` reads "null". */
  function Str(s: Option<string>): string {
    s.GetOr("null")
  }

  predicate StartsWith(s: string, prefix: string) {
    |prefix| <= |s| && s[..|prefix|] == prefix
  }

  /** `sub` occurs in `s` at index `i`. */
  predicate OccursAt(s: string, sub: string, i: int) {
    0 <= i && i + |sub| <= |s| && s[i..i + |sub|] == sub
  }

  lemma OccursAtTail(s: string, sub: string, j: int)
    requires |s| > 0 && 1 <= j
    ensures OccursAt(s, sub, j) <==> OccursAt(s[1..], sub, j - 1)
  {
    if j + |sub| <= |s| {
      assert s[1..][j - 1..j - 1 + |sub|] == s[j..j + |sub|];
    }
  }

  /** `s.indexOf(sub)`: the first index at which `sub` occurs, or -1. */
  function IndexOf(s: string, sub: string): (r: int)
    ensures r == -1 || OccursAt(s, sub, r)
    ensures forall j :: 0 <= j && (r == -1 || j < r) ==> !OccursAt(s, sub, j)
    decreases |s|
  {
    if StartsWith(s, sub) then 0
    else if |s| == 0 then -1
    else
      var k := IndexOf(s[1..], sub);
      assert !OccursAt(s, sub, 0);
      assert forall j :: 1 <= j ==> (OccursAt(s, sub, j) <==> OccursAt(s[1..], sub, j - 1)) by {
        forall j | 1 <= j ensures OccursAt(s, sub, j) <==> OccursAt(s[1..], sub, j - 1) {
          OccursAtTail(s, sub, j);
        }
      }
      if k < 0 then -1 else k + 1
  }

  /** `indexOf` answers 0 exactly when the pattern is a prefix. */
  lemma IndexOfZeroIffPrefix(s: string, prefix: string)
    ensures IndexOf(s, prefix) == 0 <==> StartsWith(s, prefix)
  {
    if StartsWith(s, prefix) {
      assert OccursAt(s, prefix, 0);
    }
  }

  /** `s.replace(pattern, replacement)` with a string pattern: only the first occurrence is replaced. */
  function ReplaceFirst(s: string, pattern: string, replacement: string): (r: string)
  {
    var i := IndexOf(s, pattern);
    if i < 0 then s else s[..i] + replacement + s[i + |pattern|..]
  }

  /** Removing a prefix by `replace(prefix, '')` leaves exactly the rest. */
  lemma ReplacePrefixByEmpty(s: string, prefix: string)
    requires StartsWith(s, prefix)
    ensures ReplaceFirst(s, prefix, "") == s[|prefix|..]
  {
    IndexOfZeroIffPrefix(s, prefix);
  }

  /** `parts.join(sep)`. */
  function Join(parts: seq<string>, sep: string): string
  {
    if |parts| == 0 then ""
    else if |parts| == 1 then parts[0]
    else parts[0] + sep + Join(parts[1..], sep)
  }

  /** Joining a concatenation puts one separator between the two joins. */
  lemma {:induction false} JoinAppend(a: seq<string>, b: seq<string>, sep: string)
    requires |a| > 0 && |b| > 0
    ensures Join(a + b, sep) == Join(a, sep) + sep + Join(b, sep)
  {
    if |a| == 1 {
      assert (a + b)[1..] == b;
    } else {
      assert (a + b)[1..] == a[1..] + b;
      JoinAppend(a[1..], b, sep);
    }
  }

  /** A join of two fixed leading parts, any middle and two fixed trailing parts opens with the
      two leading parts and a separator after each and closes with the two trailing parts. */
  lemma JoinFrame(a: string, b: string, middle: seq<string>, c: string, d: string, sep: string)
    ensures var j := Join([a, b] + middle + [c, d], sep);
      StartsWith(j, a + sep + b + sep) && |c + sep + d| <= |j| && j[|j| - |c + sep + d|..] == c + sep + d
  {
    var open, close := [a, b], [c, d];
    var j := Join(open + middle + close, sep);
    assert open + middle + close == open + (middle + close);
    JoinAppend(open, middle + close, sep);
    JoinAppend(open + middle, close, sep);
    assert Join(open, sep) == a + sep + b;
    assert Join(close, sep) == c + sep + d;
    var x := Join(middle + close, sep);
    assert j == (a + sep + b + sep) + x;
    var y := Join(open + middle, sep);
    assert j == (y + sep) + (c + sep + d);
  }

  /** The digit character of a value below ten. */
  function Digit(d: nat): char
    requires d < 10
  {
    "0123456789"[d]
  }

  /** The value of a decimal digit character. */
  function DigitValue(c: char): nat
  {
    if '0' <= c <= '9' then (c as int) - ('0' as int) else 0
  }

  /** How JavaScript renders a non-negative integer: decimal, no leading zeros. */
  function NatToDecimal(n: nat): (s: string)
    ensures |s| > 0
    decreases n
  {
    if n < 10 then [Digit(n)] else NatToDecimal(n / 10) + [Digit(n % 10)]
  }

  /** How JavaScript renders an integer (`'' + n`). */
  function IntToDecimal(n: int): string
  {
    if n < 0 then "-" + NatToDecimal(-n) else NatToDecimal(n)
  }

  /** Reading a string of decimal digits back as a number. */
  function DecimalValue(s: string): nat
  {
    if |s| == 0 then 0 else 10 * DecimalValue(s[..|s| - 1]) + DigitValue(s[|s| - 1])
  }

  predicate AllDigits(s: string) {
    forall i :: 0 <= i < |s| ==> '0' <= s[i] <= '9'
  }

  /** The decimal rendering of a number reads back as that number and is made of digits only. */
  lemma {:induction false} DecimalRoundTrip(n: nat)
    ensures AllDigits(NatToDecimal(n))
    ensures DecimalValue(NatToDecimal(n)) == n
  {
    var s := NatToDecimal(n);
    if n < 10 {
      assert DecimalValue(s) == 10 * DecimalValue([]) + DigitValue(Digit(n));
    } else {
      DecimalRoundTrip(n / 10);
      var t := NatToDecimal(n / 10);
      assert s[..|s| - 1] == t;
      assert DigitValue(s[|s| - 1]) == n % 10;
    }
  }

  /** A JavaScript object with string keys, in its iteration order: insertion order. */
  type Dict<V> = seq<(string, V)>

  function Keys<V>(m: Dict<V>): (ks: seq<string>)
    ensures |ks| == |m| && forall i :: 0 <= i < |m| ==> ks[i] == m[i].0
  {
    if m == [] then [] else [m[0].0] + Keys(m[1..])
  }

  /** No key appears twice, as in a JavaScript object. */
  predicate UniqueKeys<V>(m: Dict<V>) {
    var ks := Keys(m);
    forall i, j :: 0 <= i < j < |ks| ==> ks[i] != ks[j]
  }

  /** `obj[key]`: the value stored under `key`, if any. */
  function Lookup<V>(m: Dict<V>, key: string): (r: Option<V>)
    ensures r.Some? <==> key in Keys(m)
    ensures r.Some? ==> (key, r.value) in m
  {
    if m == [] then None
    else if m[0].0 == key then Some(m[0].1)
    else Lookup(m[1..], key)
  }

  /** In a map without repeated keys, every entry is what a lookup of its key finds. */
  lemma {:induction false} LookupEntry<V>(m: Dict<V>, i: nat)
    requires UniqueKeys(m) && i < |m|
    ensures Lookup(m, m[i].0) == Some(m[i].1)
  {
    if i > 0 {
      assert Keys(m)[0] != Keys(m)[i];
      assert Keys(m[1..]) == Keys(m)[1..];
      LookupEntry(m[1..], i - 1);
    }
  }

  /** `obj[key] = v`: a new key goes to the end, an existing key keeps its place. */
  function Put<V>(m: Dict<V>, key: string, v: V): Dict<V>
  {
    if m == [] then [(key, v)]
    else if m[0].0 == key then [(key, v)] + m[1..]
    else [m[0]] + Put(m[1..], key, v)
  }

  /** After `obj[key] = v` the key finds `v` and every other key finds what it found before. */
  lemma {:induction false} PutLookup<V>(m: Dict<V>, key: string, f: V, k: string)
    ensures Lookup(Put(m, key, f), k) == if k == key then Some(f) else Lookup(m, k)
  {
    if m != [] && m[0].0 != key {
      PutLookup(m[1..], key, f, k);
    }
  }

  /** Assignment keeps the key order; a new key is appended. */
  lemma {:induction false} PutKeys<V>(m: Dict<V>, key: string, f: V)
    ensures Keys(Put(m, key, f)) == if key in Keys(m) then Keys(m) else Keys(m) + [key]
    ensures UniqueKeys(m) ==> UniqueKeys(Put(m, key, f))
  {
    if m != [] && m[0].0 != key {
      PutKeys(m[1..], key, f);
      assert Keys(m) == [m[0].0] + Keys(m[1..]);
    }
  }

  /** Concatenation regroups freely. */
  lemma ConcatAssoc<T>(x: seq<T>, y: seq<T>, z: seq<T>)
    ensures x + y + z == x + (y + z)
  {
  }

  /** Every key of `m` is a key of `n`. */
  predicate KeysKept<V>(m: Dict<V>, n: Dict<V>) {
    forall k :: k in Keys(m) ==> k in Keys(n)
  }

  lemma KeysKeptTrans<V>(a: Dict<V>, b: Dict<V>, c: Dict<V>)
    requires KeysKept(a, b) && KeysKept(b, c)
    ensures KeysKept(a, c)
  {
  }

  /** Registers every entry of `entries`, in order. */
  function PutAll<V>(m: Dict<V>, entries: Dict<V>): Dict<V>
    decreases |entries|
  {
    if entries == [] then m
    else
      var last := entries[|entries| - 1];
      Put(PutAll(m, entries[..|entries| - 1]), last.0, last.1)
  }

  /** Registering entries keeps the old keys, adds the new ones and repeats none. */
  lemma PutAllKeys<V>(m: Dict<V>, entries: Dict<V>)
    ensures forall k :: k in Keys(m) ==> k in Keys(PutAll(m, entries))
    ensures forall k :: k in Keys(entries) ==> k in Keys(PutAll(m, entries))
    ensures UniqueKeys(m) ==> UniqueKeys(PutAll(m, entries))
  {
    forall k | k in Keys(m) || k in Keys(entries)
      ensures k in Keys(PutAll(m, entries))
    {
      PutAllHas(m, entries, k);
    }
    if UniqueKeys(m) {
      PutAllUnique(m, entries);
    }
  }

  /** A key that none of the entries carries finds what it found before, repeated keys among
      the entries or not. */
  lemma {:induction false} PutAllAbsent<V>(m: Dict<V>, entries: Dict<V>, k: string)
    requires k !in Keys(entries)
    ensures Lookup(PutAll(m, entries), k) == Lookup(m, k)
    decreases |entries|
  {
    if entries != [] {
      var n := |entries|;
      var last, rest := entries[n - 1], entries[..n - 1];
      assert entries == rest + [last];
      KeysSnoc(rest, last);
      PutAllAbsent(m, rest, k);
      PutLookup(PutAll(m, rest), last.0, last.1, k);
    }
  }

  lemma {:induction false} PutAllHas<V>(m: Dict<V>, entries: Dict<V>, k: string)
    requires k in Keys(m) || k in Keys(entries)
    ensures k in Keys(PutAll(m, entries))
    decreases |entries|
  {
    if entries != [] {
      var n := |entries|;
      var last, rest := entries[n - 1], entries[..n - 1];
      var prev := PutAll(m, rest);
      assert PutAll(m, entries) == Put(prev, last.0, last.1);
      PutHas(prev, last.0, last.1, k);
      if k != last.0 {
        KeysSnoc(rest, last);
        assert entries == rest + [last];
        assert k in Keys(m) || k in Keys(rest);
        PutAllHas(m, rest, k);
      }
    }
  }

  /** After `obj[key] = v` the keys are the old ones and `key`. */
  lemma PutHas<V>(m: Dict<V>, key: string, v: V, k: string)
    ensures k in Keys(Put(m, key, v)) <==> k == key || k in Keys(m)
  {
    PutKeys(m, key, v);
  }

  lemma {:induction false} PutAllUnique<V>(m: Dict<V>, entries: Dict<V>)
    requires UniqueKeys(m)
    ensures UniqueKeys(PutAll(m, entries))
    decreases |entries|
  {
    if entries != [] {
      var n := |entries|;
      var last, rest := entries[n - 1], entries[..n - 1];
      PutAllUnique(m, rest);
      PutKeys(PutAll(m, rest), last.0, last.1);
    }
  }

  lemma KeysSnoc<V>(m: Dict<V>, e: (string, V))
    ensures Keys(m + [e]) == Keys(m) + [e.0]
  {
    assert |Keys(m + [e])| == |Keys(m) + [e.0]|;
  }

  /** An entry at the end is found only by a key that no earlier entry has. */
  lemma {:induction false} LookupSnoc<V>(m: Dict<V>, e: (string, V), k: string)
    ensures Lookup(m + [e], k) == if k in Keys(m) then Lookup(m, k) else if k == e.0 then Some(e.1) else None
    decreases |m|
  {
    if m != [] {
      assert (m + [e])[1..] == m[1..] + [e];
      assert Keys(m) == [m[0].0] + Keys(m[1..]);
      LookupSnoc(m[1..], e, k);
    }
  }

  /** Registering entries with no repeated key: each of their keys then finds its entry, and
      every other key finds what it found before. */
  lemma {:induction false} PutAllLookup<V>(m: Dict<V>, entries: Dict<V>, k: string)
    requires UniqueKeys(entries)
    ensures Lookup(PutAll(m, entries), k) == if k in Keys(entries) then Lookup(entries, k) else Lookup(m, k)
    decreases |entries|
  {
    if entries != [] {
      var n := |entries|;
      var last, rest := entries[n - 1], entries[..n - 1];
      assert entries == rest + [last];
      KeysSnoc(rest, last);
      assert UniqueKeys(rest) by {
        assert forall i :: 0 <= i < |rest| ==> Keys(rest)[i] == Keys(entries)[i];
      }
      assert last.0 !in Keys(rest) by {
        assert Keys(entries)[n - 1] == last.0;
        assert forall i :: 0 <= i < n - 1 ==> Keys(rest)[i] == Keys(entries)[i];
      }
      PutAllLookup(m, rest, k);
      PutLookup(PutAll(m, rest), last.0, last.1, k);
      LookupSnoc(rest, last, k);
    }
  }
}
