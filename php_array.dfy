/**
 * PHP arrays as the registry and the offset requests use them: ordered
 * association lists whose keys are unique. `$a[$k] = $v` overwrites the
 * value of an existing key where it stands and appends a new key at the
 * end; `serialize($a) === serialize($b)` is equality of the lists, order
 * included. A string used as a key is turned into an integer key when it
 * is a canonical decimal integer in the 64-bit range, as PHP does.
 */
module PhpArray {
  import opened Wrappers
  import opened PhpString

  /** A PHP array key after PHP's key normalisation. */
  datatype Key = IntKey(i: int) | StrKey(s: string)

  const Int64Min: int := -0x8000_0000_0000_0000
  const Int64Max: int := 0x7fff_ffff_ffff_ffff

  /** An optional minus sign, then digits without a leading zero ("0" itself allowed, "-0" not). */
  predicate IsCanonicalDecimal(s: string) {
    var d := if |s| > 0 && s[0] == '-' then s[1..] else s;
    |d| >= 1 && IsDigits(d) && (d[0] == '0' ==> s == "0")
  }

  function DecimalValue(s: string): int
    requires IsCanonicalDecimal(s)
  {
    if s[0] == '-' then -(DigitsValue(s[1..]) as int) else DigitsValue(s)
  }

  /** The key PHP stores when the string `s` is used as an array key. */
  function ArrayKey(s: string): (k: Key)
    ensures k.StrKey? ==> k == StrKey(s)
  {
    if IsCanonicalDecimal(s) && Int64Min <= DecimalValue(s) <= Int64Max
    then IntKey(DecimalValue(s))
    else StrKey(s)
  }

  lemma {:induction false} LeadingDigitPositive(d: string)
    requires IsDigits(d) && |d| >= 1 && d[0] != '0'
    ensures DigitsValue(d) > 0
  {
    if |d| > 1 {
      LeadingDigitPositive(d[..|d| - 1]);
    }
  }

  lemma {:induction false} CanonicalDigitsRoundTrip(d: string)
    requires IsDigits(d) && |d| >= 1 && (d[0] == '0' ==> |d| == 1)
    ensures NatToDecimal(DigitsValue(d)) == d
  {
    if |d| > 1 {
      var prefix := d[..|d| - 1];
      CanonicalDigitsRoundTrip(prefix);
      LeadingDigitPositive(prefix);
      var v := DigitsValue(d);
      assert v / 10 == DigitsValue(prefix) && v % 10 == DigitValue(d[|d| - 1]);
      assert d == prefix + [d[|d| - 1]];
    }
  }

  /** Every canonical decimal string is the rendering of its value. */
  lemma DecimalRoundTrip(s: string)
    requires IsCanonicalDecimal(s)
    ensures IntToDecimal(DecimalValue(s)) == s
  {
    if s[0] == '-' {
      var d := s[1..];
      LeadingDigitPositive(d);
      CanonicalDigitsRoundTrip(d);
      assert s == "-" + d;
    } else {
      CanonicalDigitsRoundTrip(s);
    }
  }

  /** A string holding ':' is never a decimal integer, so it stays a string key. */
  lemma ColonKeyIsString(s: string)
    requires ':' in s
    ensures ArrayKey(s) == StrKey(s)
  {
    var i :| 0 <= i < |s| && s[i] == ':';
    assert !IsDigit(s[i]);
    if |s| > 0 && s[0] == '-' {
      assert s[1..][i - 1] == s[i];
    }
  }

  /** The string key "7" finds the integer key 7: a node id used as a string key. */
  lemma ArrayKeyOfDecimal(n: int)
    requires Int64Min <= n <= Int64Max
    ensures ArrayKey(IntToDecimal(n)) == IntKey(n)
  {
    var s := IntToDecimal(n);
    if n < 0 {
      assert s[1..] == NatToDecimal(-n);
    }
    assert IsCanonicalDecimal(s) && DecimalValue(s) == n;
  }

  /** Distinct strings are distinct keys, so a cache keyed by string loses nothing. */
  lemma ArrayKeyInjective(s: string, t: string)
    requires ArrayKey(s) == ArrayKey(t)
    ensures s == t
  {
    if ArrayKey(s).IntKey? {
      DecimalRoundTrip(s);
      DecimalRoundTrip(t);
    }
  }

  // ---------------------------------------------------------------------------
  // Ordered association lists

  type Assoc<K, V> = seq<(K, V)>

  function Keys<K(==), V>(a: Assoc<K, V>): (ks: seq<K>)
    ensures |ks| == |a| && forall i {:trigger ks[i]} :: 0 <= i < |a| ==> ks[i] == a[i].0
  {
    if |a| == 0 then [] else [a[0].0] + Keys(a[1..])
  }

  predicate Distinct<K(==)>(ks: seq<K>) {
    forall i, j :: 0 <= i < j < |ks| ==> ks[i] != ks[j]
  }

  lemma KeysPrefix<K, V>(a: Assoc<K, V>, j: nat)
    requires j <= |a|
    ensures Keys(a[..j]) == Keys(a)[..j]
  {
    forall i | 0 <= i < j
      ensures Keys(a[..j])[i] == Keys(a)[i]
    {
    }
  }

  lemma KeysTail<K, V>(a: Assoc<K, V>)
    requires |a| > 0
    ensures Keys(a[1..]) == Keys(a)[1..]
  {
    forall i | 0 <= i < |a| - 1
      ensures Keys(a[1..])[i] == Keys(a)[i + 1]
    {
    }
  }

  /** A key of a concatenation is a key of one of its parts. */
  lemma KeysAppendMember<K, V>(a: Assoc<K, V>, b: Assoc<K, V>, k: K)
    ensures k in Keys(a + b) <==> k in Keys(a) || k in Keys(b)
  {
    KeysAppend(a, b);
  }

  /** A key of a non-empty list is a key of all but its last pair, or the last pair's key. */
  lemma KeysSnocMember<K, V>(a: Assoc<K, V>, k: K)
    requires |a| > 0
    ensures k in Keys(a) <==> k in Keys(a[..|a| - 1]) || k == a[|a| - 1].0
  {
    var n := |a| - 1;
    KeysPrefix(a, n);
    assert Keys(a)[n] == a[n].0;
    SnocMember(Keys(a), k);
  }

  lemma SnocMember<T>(s: seq<T>, x: T)
    requires |s| > 0
    ensures x in s <==> x in s[..|s| - 1] || x == s[|s| - 1]
  {
    assert s == s[..|s| - 1] + [s[|s| - 1]];
  }

  /** The representation invariant of a PHP array: no key twice. */
  predicate UniqueKeys<K(==), V>(a: Assoc<K, V>) {
    Distinct(Keys(a))
  }

  /** `$a[$k] ?? null`. */
  function Lookup<K(==), V>(a: Assoc<K, V>, k: K): (r: Option<V>)
    ensures r.Some? <==> k in Keys(a)
  {
    if |a| == 0 then None
    else if a[0].0 == k then Some(a[0].1)
    else Lookup(a[1..], k)
  }

  lemma {:induction false} LookupAt<K, V>(a: Assoc<K, V>, i: nat)
    requires UniqueKeys(a) && i < |a|
    ensures Lookup(a, a[i].0) == Some(a[i].1)
  {
    if i > 0 {
      KeysTail(a);
      assert Keys(a)[0] == a[0].0 && Keys(a)[i] == a[i].0;
      assert a[1..][i - 1] == a[i];
      LookupAt(a[1..], i - 1);
    }
  }

  lemma DistinctAppend<K>(ks: seq<K>, x: K)
    requires Distinct(ks) && x !in ks
    ensures Distinct(ks + [x])
  {
  }

  /** Looking up in a concatenation: the first part wins. */
  lemma {:induction false} LookupAppend<K, V>(a: Assoc<K, V>, b: Assoc<K, V>, k: K)
    ensures Lookup(a + b, k) == if k in Keys(a) then Lookup(a, k) else Lookup(b, k)
  {
    if |a| == 0 {
      assert a + b == b;
    } else {
      assert (a + b)[0] == a[0] && (a + b)[1..] == a[1..] + b;
      assert Keys(a) == [a[0].0] + Keys(a[1..]);
      LookupAppend(a[1..], b, k);
    }
  }

  lemma {:induction false} KeysAppend<K, V>(a: Assoc<K, V>, b: Assoc<K, V>)
    ensures Keys(a + b) == Keys(a) + Keys(b)
  {
    if |a| == 0 {
      assert a + b == b;
    } else {
      assert (a + b)[1..] == a[1..] + b;
      KeysAppend(a[1..], b);
    }
  }

  /** `$a[$k] = $v`: an existing key keeps its place, a new key goes last. */
  function Put<K(==), V>(a: Assoc<K, V>, k: K, v: V): (r: Assoc<K, V>)
    ensures Keys(r) == if k in Keys(a) then Keys(a) else Keys(a) + [k]
    ensures Lookup(r, k) == Some(v)
  {
    if k in Keys(a) then Overwrite(a, k, v)
    else
      KeysAppend(a, [(k, v)]);
      LookupAppend(a, [(k, v)], k);
      a + [(k, v)]
  }

  /** The value of a key already present replaced where the key stands. */
  function Overwrite<K(==), V>(a: Assoc<K, V>, k: K, v: V): (r: Assoc<K, V>)
    requires k in Keys(a)
    ensures Keys(r) == Keys(a) && Lookup(r, k) == Some(v)
  {
    KeysTail(a);
    assert Keys(a)[0] == a[0].0;
    if a[0].0 == k then
      var r := [(k, v)] + a[1..];
      KeysTail(r);
      r
    else
      var tail := Overwrite(a[1..], k, v);
      var r := [a[0]] + tail;
      assert r[1..] == tail;
      KeysTail(r);
      r
  }

  /** `$a[$k] = $v` keeps the keys unique. */
  lemma PutUnique<K, V>(a: Assoc<K, V>, k: K, v: V)
    requires UniqueKeys(a)
    ensures UniqueKeys(Put(a, k, v))
  {
    if k !in Keys(a) {
      DistinctAppend(Keys(a), k);
    }
  }

  /** Overwriting one key leaves every other key's value alone. */
  lemma {:induction false} OverwriteOther<K, V>(a: Assoc<K, V>, k: K, v: V, j: K)
    requires k in Keys(a) && j != k
    ensures Lookup(Overwrite(a, k, v), j) == Lookup(a, j)
  {
    KeysTail(a);
    assert Keys(a)[0] == a[0].0;
    if a[0].0 != k {
      OverwriteOther(a[1..], k, v, j);
      assert Overwrite(a, k, v)[1..] == Overwrite(a[1..], k, v);
    }
  }

  /** `$a[$k] = $v` leaves every other key's value alone. */
  lemma PutOther<K, V>(a: Assoc<K, V>, k: K, v: V, j: K)
    requires j != k
    ensures Lookup(Put(a, k, v), j) == Lookup(a, j)
  {
    if k in Keys(a) {
      OverwriteOther(a, k, v, j);
    } else {
      LookupAppend(a, [(k, v)], j);
    }
  }

  /** A key that is last in the list is overwritten in the last place. */
  lemma {:induction false} OverwriteLast<K, V>(a: Assoc<K, V>, k: K, v: V, w: V)
    requires k !in Keys(a)
    ensures k in Keys(a + [(k, v)])
    ensures Overwrite(a + [(k, v)], k, w) == a + [(k, w)]
  {
    KeysAppend(a, [(k, v)]);
    if |a| > 0 {
      KeysTail(a);
      assert Keys(a)[0] == a[0].0;
      assert (a + [(k, v)])[1..] == a[1..] + [(k, v)];
      OverwriteLast(a[1..], k, v, w);
      assert a + [(k, w)] == [a[0]] + (a[1..] + [(k, w)]);
    }
  }

  /** Writing again to the key just appended replaces it in the last place. */
  lemma PutLast<K, V>(a: Assoc<K, V>, k: K, v: V, w: V)
    requires k !in Keys(a)
    ensures Put(a + [(k, v)], k, w) == a + [(k, w)]
  {
    OverwriteLast(a, k, v, w);
  }

  /** Writing a new key appends it. */
  lemma PutAbsent<K, V>(a: Assoc<K, V>, k: K, v: V)
    requires k !in Keys(a)
    ensures Put(a, k, v) == a + [(k, v)]
  {
  }

  /** The array built by `foreach (... ) { $a[$k] = $v; }` over the pairs in order. */
  function FromPairs<K(==), V>(ps: seq<(K, V)>): (a: Assoc<K, V>)
    ensures UniqueKeys(a)
  {
    if |ps| == 0 then []
    else
      var prev := FromPairs(ps[..|ps| - 1]);
      PutUnique(prev, ps[|ps| - 1].0, ps[|ps| - 1].1);
      Put(prev, ps[|ps| - 1].0, ps[|ps| - 1].1)
  }

  /** One more iteration of the building loop: the next pair is put into the array built so far. */
  lemma FromPairsStep<K, V>(ps: seq<(K, V)>, i: nat)
    requires i < |ps|
    ensures FromPairs(ps[..i + 1]) == Put(FromPairs(ps[..i]), ps[i].0, ps[i].1)
  {
    assert ps[..i + 1][..i] == ps[..i];
  }

  /** Reference definition of "later duplicates win": the value of the last pair with key `k`. */
  function LastValue<K(==), V>(ps: seq<(K, V)>, k: K): Option<V> {
    if |ps| == 0 then None
    else if ps[|ps| - 1].0 == k then Some(ps[|ps| - 1].1)
    else LastValue(ps[..|ps| - 1], k)
  }

  /** Reference definition of "overwrite in place": each key where it first occurs. */
  function FirstOccurrences<K(==,!new)>(ks: seq<K>): (r: seq<K>)
    ensures forall x :: x in r <==> x in ks
  {
    if |ks| == 0 then []
    else
      var prefix := ks[..|ks| - 1];
      var last := ks[|ks| - 1];
      assert ks == prefix + [last];
      FirstOccurrences(prefix) + if last in prefix then [] else [last]
  }

  lemma {:induction false} FromPairsLookup<K, V>(ps: seq<(K, V)>, k: K)
    ensures Lookup(FromPairs(ps), k) == LastValue(ps, k)
  {
    if |ps| > 0 {
      var last := ps[|ps| - 1];
      FromPairsLookup(ps[..|ps| - 1], k);
      if last.0 != k {
        PutOther(FromPairs(ps[..|ps| - 1]), last.0, last.1, k);
      }
    }
  }

  lemma {:induction false} FromPairsKeys<K(!new), V>(ps: seq<(K, V)>)
    ensures Keys(FromPairs(ps)) == FirstOccurrences(Keys(ps))
  {
    if |ps| > 0 {
      var prefix := ps[..|ps| - 1];
      FromPairsKeys(prefix);
      KeysPrefix(ps, |ps| - 1);
      assert ps[|ps| - 1].0 in Keys(FromPairs(prefix)) <==> ps[|ps| - 1].0 in Keys(prefix);
    }
  }

  lemma {:induction false} LastValueAt<K, V>(ps: seq<(K, V)>, i: nat)
    requires i < |ps|
    requires forall j :: i < j < |ps| ==> ps[j].0 != ps[i].0
    ensures LastValue(ps, ps[i].0) == Some(ps[i].1)
  {
    if i < |ps| - 1 {
      LastValueAt(ps[..|ps| - 1], i);
    }
  }

  lemma {:induction false} LastValueAbsent<K, V>(ps: seq<(K, V)>, k: K)
    requires k !in Keys(ps)
    ensures LastValue(ps, k) == None
  {
    if |ps| > 0 {
      KeysPrefix(ps, |ps| - 1);
      assert Keys(ps)[|ps| - 1] == ps[|ps| - 1].0;
      LastValueAbsent(ps[..|ps| - 1], k);
    }
  }
}
