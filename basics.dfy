/** Values and string operations shared by every module of the model:
    optional values, Python's `str` methods that the source relies on
    (`strip`, `lstrip`, `rstrip`, `startswith`, `endswith`, `replace`,
    `split`, `join`, `lower`) and decimal rendering of integers. */
module Basics {

  datatype Option<+T> = None | Some(value: T) {
    function GetOr(default: T): T {
      match this
      case Some(v) => v
      case None => default
    }
  }

  datatype Result<+T, +E> = Ok(value: T) | Err(error: E)

  /** Python's `str.isspace()` set: the characters that `str.strip()` with no
      argument removes. */
  predicate IsPySpace(c: char) {
    c == '\t' || c == '\n' || c == '\U{000B}' || c == '\U{000C}' || c == '\r'
    || ('\U{001C}' <= c <= '\U{001F}') || c == ' '
    || c == '\U{0085}' || c == '\U{00A0}' || c == '\U{1680}'
    || ('\U{2000}' <= c <= '\U{200A}')
    || c == '\U{2028}' || c == '\U{2029}' || c == '\U{202F}' || c == '\U{205F}' || c == '\U{3000}'
  }

  function TrimStart(s: string): (r: string)
    ensures |r| <= |s| && r == s[|s| - |r|..]
    ensures r == [] || !IsPySpace(r[0])
    ensures forall i :: 0 <= i < |s| - |r| ==> IsPySpace(s[i])
  {
    if s == [] || !IsPySpace(s[0]) then s else TrimStart(s[1..])
  }

  function TrimEnd(s: string): (r: string)
    ensures |r| <= |s| && r == s[..|r|]
    ensures r == [] || !IsPySpace(r[|r| - 1])
    ensures forall i :: |r| <= i < |s| ==> IsPySpace(s[i])
  {
    if s == [] || !IsPySpace(s[|s| - 1]) then s else TrimEnd(s[..|s| - 1])
  }

  /** `s.strip()` */
  function Strip(s: string): string {
    TrimEnd(TrimStart(s))
  }

  /** `s.lstrip(c)` for a one-character argument */
  function LStripChar(s: string, c: char): (r: string)
    ensures |r| <= |s| && r == s[|s| - |r|..]
    ensures r == [] || r[0] != c
    ensures forall i :: 0 <= i < |s| - |r| ==> s[i] == c
  {
    if s == [] || s[0] != c then s else LStripChar(s[1..], c)
  }

  /** `s.rstrip(c)` for a one-character argument */
  function RStripChar(s: string, c: char): (r: string)
    ensures |r| <= |s| && r == s[..|r|]
    ensures r == [] || r[|r| - 1] != c
    ensures forall i :: |r| <= i < |s| ==> s[i] == c
  {
    if s == [] || s[|s| - 1] != c then s else RStripChar(s[..|s| - 1], c)
  }

  predicate StartsWith(s: string, prefix: string) {
    |prefix| <= |s| && s[..|prefix|] == prefix
  }

  predicate EndsWith(s: string, suffix: string) {
    |suffix| <= |s| && s[|s| - |suffix|..] == suffix
  }

  /** `s.replace(a, b)` for one-character arguments */
  function ReplaceChar(s: string, a: char, b: char): (r: string)
    ensures |r| == |s|
    ensures forall i :: 0 <= i < |s| ==> r[i] == (if s[i] == a then b else s[i])
  {
    seq(|s|, i requires 0 <= i < |s| => if s[i] == a then b else s[i])
  }

  /** `s.split(sep)` for a one-character separator: the pieces between
      separators, so that joining them with `sep` gives `s` back. */
  function Split(s: string, sep: char): (parts: seq<string>)
    ensures |parts| >= 1
    ensures forall k :: 0 <= k < |parts| ==> sep !in parts[k]
    ensures Join([sep], parts) == s
  {
    if sep !in s then [s]
    else
      var i := IndexOf(s, sep);
      var rest := Split(s[i + 1..], sep);
      assert s == s[..i] + [sep] + s[i + 1..];
      [s[..i]] + rest
  }

  /** Index of the first occurrence of `c` in `s`. */
  function IndexOf(s: string, c: char): (i: nat)
    requires c in s
    ensures i < |s| && s[i] == c && c !in s[..i]
  {
    if s[0] == c then 0 else 1 + IndexOf(s[1..], c)
  }

  /** `sep.join(parts)` */
  function Join(sep: string, parts: seq<string>): string {
    if parts == [] then ""
    else if |parts| == 1 then parts[0]
    else parts[0] + sep + Join(sep, parts[1..])
  }

  lemma {:induction false} JoinAvoids(sep: string, parts: seq<string>, c: char)
    requires c !in sep
    requires forall k :: 0 <= k < |parts| ==> c !in parts[k]
    ensures c !in Join(sep, parts)
  {
    if |parts| > 1 {
      JoinAvoids(sep, parts[1..], c);
    }
  }

  lemma {:induction false} JoinAppend(sep: string, a: seq<string>, b: seq<string>)
    requires |a| >= 1 && |b| >= 1
    ensures Join(sep, a + b) == Join(sep, a) + sep + Join(sep, b)
  {
    if |a| > 1 {
      assert (a + b)[1..] == a[1..] + b;
      JoinAppend(sep, a[1..], b);
    } else {
      assert (a + b)[1..] == b;
    }
  }

  lemma {:induction false} IndexOfAt(s: string, c: char, i: nat)
    requires i < |s| && s[i] == c && c !in s[..i]
    ensures IndexOf(s, c) == i
  {
    if i > 0 {
      assert s[0] == s[..i][0];
      assert s[1..][..i - 1] == s[..i][1..];
      IndexOfAt(s[1..], c, i - 1);
    }
  }

  /** Splitting undoes joining, when no piece holds the separator. */
  lemma {:induction false} SplitJoin(parts: seq<string>, sep: char)
    requires |parts| >= 1
    requires forall k :: 0 <= k < |parts| ==> sep !in parts[k]
    ensures Split(Join([sep], parts), sep) == parts
  {
    if |parts| > 1 {
      var s := Join([sep], parts);
      var rest := Join([sep], parts[1..]);
      var i := |parts[0]|;
      assert s == parts[0] + [sep] + rest;
      assert IndexOf(s, sep) == i by {
        assert s[i] == sep && s[..i] == parts[0];
        IndexOfAt(s, sep, i);
      }
      assert s[..i] == parts[0] && s[i + 1..] == rest;
      SplitJoin(parts[1..], sep);
      assert Split(s, sep) == [parts[0]] + Split(rest, sep);
      assert parts == [parts[0]] + parts[1..];
    }
  }

  /** ASCII lower-casing of one character. */
  function LowerChar(c: char): char {
    if 'A' <= c <= 'Z' then (c as int + 32) as char else c
  }

  /** `s.lower()`, restricted to the ASCII letters. */
  function Lower(s: string): (r: string)
    ensures |r| == |s|
    ensures forall i :: 0 <= i < |s| ==> r[i] == LowerChar(s[i])
  {
    seq(|s|, i requires 0 <= i < |s| => LowerChar(s[i]))
  }

  predicate NoDup<T(==)>(s: seq<T>) {
    forall i, j :: 0 <= i < j < |s| ==> s[i] != s[j]
  }

  /** Concatenation of a list of lists, as `for x in xs: out.extend(x)`. */
  function Flatten<T>(xss: seq<seq<T>>): seq<T> {
    if xss == [] then [] else xss[0] + Flatten(xss[1..])
  }

  lemma {:induction false} FlattenAppend<T>(xss: seq<seq<T>>, ys: seq<T>)
    ensures Flatten(xss + [ys]) == Flatten(xss) + ys
  {
    if xss != [] {
      assert (xss + [ys])[1..] == xss[1..] + [ys];
      FlattenAppend(xss[1..], ys);
    } else {
      assert Flatten([ys]) == ys + Flatten([]);
    }
  }

  /** Putting the head back in front of the tail and what follows. */
  lemma HeadTail<T>(a: seq<T>, b: seq<T>)
    requires a != []
    ensures [a[0]] + (a[1..] + b) == a + b
  {
    assert a == [a[0]] + a[1..];
  }

  lemma ConcatAssoc<T>(a: seq<T>, b: seq<T>, c: seq<T>)
    ensures (a + b) + c == a + (b + c)
  {
  }

  /** `[f(x) for x in xs]` */
  function Map<T, U>(f: T -> U, xs: seq<T>): (r: seq<U>)
    ensures |r| == |xs| && forall k :: 0 <= k < |xs| ==> r[k] == f(xs[k])
  {
    seq(|xs|, k requires 0 <= k < |xs| => f(xs[k]))
  }

  /** Mapping a prefix one longer appends the image of its last element. */
  lemma MapStep<T, U>(f: T -> U, xs: seq<T>, i: nat)
    requires i < |xs|
    ensures Map(f, xs[..i + 1]) == Map(f, xs[..i]) + [f(xs[i])]
  {
  }

  /** Mapping distributes over concatenation. */
  lemma MapAppend<T, U>(f: T -> U, a: seq<T>, b: seq<T>)
    ensures Map(f, a + b) == Map(f, a) + Map(f, b)
  {
  }

  /** The lists `f` gives for each element, concatenated in order, as
      `for x in xs: out.extend(f(x))`. */
  function FlatMap<T, U>(f: T -> seq<U>, xs: seq<T>): seq<U> {
    if xs == [] then [] else FlatMap(f, xs[..|xs| - 1]) + f(xs[|xs| - 1])
  }

  /** One step of `FlatMap` on a prefix, as a loop over `xs` takes it. */
  lemma FlatMapStep<T, U>(f: T -> seq<U>, xs: seq<T>, i: nat)
    requires i < |xs|
    ensures FlatMap(f, xs[..i + 1]) == FlatMap(f, xs[..i]) + f(xs[i])
  {
    assert xs[..i + 1][..i] == xs[..i];
  }

  /** `FlatMap` distributes over concatenation. */
  lemma {:induction false} FlatMapConcat<T, U>(f: T -> seq<U>, a: seq<T>, b: seq<T>)
    ensures FlatMap(f, a + b) == FlatMap(f, a) + FlatMap(f, b)
  {
    if b == [] {
      assert a + b == a;
    } else {
      var b0 := b[..|b| - 1];
      FlatMapConcat(f, a, b0);
      assert (a + b)[..|a + b| - 1] == a + b0;
      assert (a + b)[|a + b| - 1] == b[|b| - 1];
    }
  }

  /** The values `f` finds for the elements of `xs`, as a loop that adds
      each one found to a set. */
  function SomeValues<T, U>(f: T -> Option<U>, xs: seq<T>): set<U> {
    set k | 0 <= k < |xs| && f(xs[k]).Some? :: f(xs[k]).value
  }

  /** One step of such a loop: the prefix one longer adds the value found
      for its last element, if any. */
  lemma SomeValuesStep<T, U>(f: T -> Option<U>, xs: seq<T>, i: nat)
    requires i < |xs|
    ensures SomeValues(f, xs[..i + 1]) ==
      SomeValues(f, xs[..i]) + (if f(xs[i]).Some? then {f(xs[i]).value} else {})
  {
    var ys := xs[..i + 1];
    assert ys[i] == xs[i];
    forall v | v in SomeValues(f, xs[..i]) ensures v in SomeValues(f, ys) {
      var k :| 0 <= k < i && f(xs[..i][k]).Some? && v == f(xs[..i][k]).value;
      assert ys[k] == xs[..i][k];
    }
    forall v | v in SomeValues(f, ys) ensures v in SomeValues(f, xs[..i]) || f(xs[i]) == Some(v) {
      var k :| 0 <= k < i + 1 && f(ys[k]).Some? && v == f(ys[k]).value;
      if k < i {
        assert ys[k] == xs[..i][k];
      }
    }
  }

  lemma {:induction false} FlattenConcat<T>(xss: seq<seq<T>>, yss: seq<seq<T>>)
    ensures Flatten(xss + yss) == Flatten(xss) + Flatten(yss)
  {
    if xss != [] {
      assert (xss + yss)[1..] == xss[1..] + yss;
      FlattenConcat(xss[1..], yss);
    } else {
      assert xss + yss == yss;
    }
  }

  function DigitChar(d: nat): char
    requires d < 10
  {
    ('0' as int + d) as char
  }

  /** Decimal text of a natural number, as `str(n)`. */
  function NatToString(n: nat): (r: string)
    ensures |r| >= 1
    ensures forall k :: 0 <= k < |r| ==> '0' <= r[k] <= '9'
  {
    if n < 10 then [DigitChar(n)] else NatToString(n / 10) + [DigitChar(n % 10)]
  }

  predicate AllDigits(s: string) {
    forall k :: 0 <= k < |s| ==> '0' <= s[k] <= '9'
  }

  /** The value of a run of decimal digits, leading zeros allowed. */
  function ParseNat(s: string): nat
    requires AllDigits(s)
  {
    if s == [] then 0 else ParseNat(s[..|s| - 1]) * 10 + (s[|s| - 1] as int - '0' as int)
  }

  /** Reading back the decimal text of a number gives the number. */
  lemma {:induction false} ParseNatToString(n: nat)
    ensures ParseNat(NatToString(n)) == n
  {
    if n >= 10 {
      var s := NatToString(n);
      assert s[..|s| - 1] == NatToString(n / 10);
      ParseNatToString(n / 10);
    }
  }

  /** A leading zero does not change the value. */
  lemma {:induction false} ParseLeadingZero(s: string)
    requires AllDigits(s)
    ensures AllDigits("0" + s) && ParseNat("0" + s) == ParseNat(s)
  {
    if s != [] {
      var t := "0" + s;
      assert t[..|t| - 1] == "0" + s[..|s| - 1];
      ParseLeadingZero(s[..|s| - 1]);
    }
  }

  /** `format(n, "0<width>d")` for a natural number: its decimal text padded
      with leading zeros to at least `width` characters. */
  function ZeroPad(s: string, width: nat): (r: string)
    decreases width - |s|
    ensures |r| == if |s| >= width then |s| else width
    ensures AllDigits(s) ==> AllDigits(r) && ParseNat(r) == ParseNat(s)
  {
    if |s| >= width then s
    else
      var r := ZeroPad("0" + s, width);
      if AllDigits(s) then ParseLeadingZero(s); r else r
  }

  /** Decimal text of an integer, as `str(i)`. */
  function IntToString(i: int): (r: string)
    ensures |r| >= 1
    ensures forall k :: 0 <= k < |r| ==> r[k] == '-' || '0' <= r[k] <= '9'
  {
    if i < 0 then "-" + NatToString(-i) else NatToString(i)
  }

  /** The map a loop builds by storing each value found in a sequence under
      its key, a later value replacing an earlier one with the same key. */
  function Indexed<T, K, V>(f: T -> Option<V>, key: V -> K, xs: seq<T>): map<K, V> {
    if xs == [] then map[]
    else
      var m := Indexed(f, key, xs[..|xs| - 1]);
      var v := f(xs[|xs| - 1]);
      if v.Some? then m[key(v.value) := v.value] else m
  }

  /** One step of such a loop: the prefix one longer stores the value found
      for its last element, if any. */
  lemma IndexedStep<T, K, V>(f: T -> Option<V>, key: V -> K, xs: seq<T>, i: nat)
    requires i < |xs|
    ensures Indexed(f, key, xs[..i + 1]) ==
      if f(xs[i]).Some? then Indexed(f, key, xs[..i])[key(f(xs[i]).value) := f(xs[i]).value]
      else Indexed(f, key, xs[..i])
  {
    assert xs[..i + 1][..i] == xs[..i];
  }

  /** Every stored value sits under its own key, every value found is
      stored under its key, and every key is that of a value found. */
  lemma {:induction false} IndexedKeys<T, K, V>(f: T -> Option<V>, key: V -> K, xs: seq<T>)
    ensures forall k :: k in Indexed(f, key, xs) ==> key(Indexed(f, key, xs)[k]) == k
    ensures forall i :: 0 <= i < |xs| && f(xs[i]).Some? ==> key(f(xs[i]).value) in Indexed(f, key, xs)
    ensures forall k :: k in Indexed(f, key, xs) ==>
      exists i :: 0 <= i < |xs| && f(xs[i]).Some? && key(f(xs[i]).value) == k
  {
    if xs != [] {
      var last := |xs| - 1;
      var init := xs[..last];
      IndexedKeys(f, key, init);
      forall i | 0 <= i < |xs| && f(xs[i]).Some?
        ensures key(f(xs[i]).value) in Indexed(f, key, xs)
      {
        if i < last {
          assert init[i] == xs[i];
        }
      }
      forall k | k in Indexed(f, key, xs)
        ensures exists i :: 0 <= i < |xs| && f(xs[i]).Some? && key(f(xs[i]).value) == k
      {
        if !(f(xs[last]).Some? && key(f(xs[last]).value) == k) {
          assert k in Indexed(f, key, init);
          var i :| 0 <= i < |init| && f(init[i]).Some? && key(f(init[i]).value) == k;
          assert xs[i] == init[i];
        }
      }
    }
  }

  /** Every stored value is one of the values found. */
  lemma {:induction false} IndexedValues<T, K, V>(f: T -> Option<V>, key: V -> K, xs: seq<T>)
    ensures forall k :: k in Indexed(f, key, xs) ==>
      exists i :: 0 <= i < |xs| && f(xs[i]) == Some(Indexed(f, key, xs)[k])
  {
    if xs != [] {
      var last := |xs| - 1;
      var init := xs[..last];
      IndexedValues(f, key, init);
      forall k | k in Indexed(f, key, xs)
        ensures exists i :: 0 <= i < |xs| && f(xs[i]) == Some(Indexed(f, key, xs)[k])
      {
        if f(xs[last]).Some? && key(f(xs[last]).value) == k {
          assert f(xs[last]) == Some(Indexed(f, key, xs)[k]);
        } else {
          assert k in Indexed(f, key, init) && Indexed(f, key, xs)[k] == Indexed(f, key, init)[k];
          var i :| 0 <= i < |init| && f(init[i]) == Some(Indexed(f, key, init)[k]);
          assert xs[i] == init[i];
        }
      }
    }
  }

  /** The value stored under a key is the one found last with that key. */
  lemma {:induction false} IndexedLatest<T, K, V>(f: T -> Option<V>, key: V -> K, xs: seq<T>, i: nat)
    requires i < |xs| && f(xs[i]).Some?
    requires forall j :: i < j < |xs| && f(xs[j]).Some? ==> key(f(xs[j]).value) != key(f(xs[i]).value)
    ensures key(f(xs[i]).value) in Indexed(f, key, xs)
    ensures Indexed(f, key, xs)[key(f(xs[i]).value)] == f(xs[i]).value
  {
    var last := |xs| - 1;
    if i < last {
      var init := xs[..last];
      assert init[i] == xs[i];
      forall j | i < j < |init| && f(init[j]).Some?
        ensures key(f(init[j]).value) != key(f(init[i]).value)
      {
        assert init[j] == xs[j];
      }
      IndexedLatest(f, key, init, i);
    }
  }

  /** Restricting a map to a list of keys one longer adds that key's entry. */
  lemma RestrictSnoc<K, V>(m: map<K, V>, ks: seq<K>, k: K)
    requires forall x :: x in ks ==> x in m
    requires k in m
    ensures (map x | x in ks + [k] :: m[x]) == (map x | x in ks :: m[x])[k := m[k]]
  {
  }

  /** Writing a key twice leaves only the second value. */
  lemma MapUpdateTwice<K, V>(m: map<K, V>, k: K, a: V, b: V)
    ensures m[k := a][k := b] == m[k := b]
  {
  }
}
