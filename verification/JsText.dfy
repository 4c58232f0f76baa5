/** Small datatypes for values that may be absent or may have failed. */
module Wrappers {
  datatype Option<+T> = None | Some(value: T)

  datatype Result<+T, +E> = Ok(value: T) | Err(error: E)
}

/** Sequence facts stated once, generically, so that proofs about text can cite them instead of rediscovering them. */
module SeqFacts {
  /** No element occurs twice. */
  predicate Distinct<T(==)>(s: seq<T>) {
    forall i, j :: 0 <= i < j < |s| ==> s[i] != s[j]
  }

  /** A new element in front keeps a sequence free of repeats. */
  lemma DistinctCons<T>(x: T, s: seq<T>)
    requires Distinct(s) && x !in s
    ensures Distinct([x] + s)
  {
    var r := [x] + s;
    forall i, j | 0 <= i < j < |r| ensures r[i] != r[j] {
      if i == 0 {
        assert r[j] == s[j - 1];
      } else {
        assert r[i] == s[i - 1] && r[j] == s[j - 1];
      }
    }
  }

  /** A new element at the end keeps a sequence free of repeats. */
  lemma DistinctSnoc<T>(s: seq<T>, x: T)
    requires Distinct(s) && x !in s
    ensures Distinct(s + [x])
  {
    var r := s + [x];
    forall i, j | 0 <= i < j < |r| ensures r[i] != r[j] {
      if j == |s| {
        assert r[i] == s[i];
      } else {
        assert r[i] == s[i] && r[j] == s[j];
      }
    }
  }

  lemma ConcatAssoc<T>(a: seq<T>, b: seq<T>, c: seq<T>)
    ensures (a + b) + c == a + (b + c)
  {
  }

  lemma TakeOneMore<T>(s: seq<T>, i: nat)
    requires i < |s|
    ensures s[..i + 1][..i] == s[..i] && s[..i + 1][i] == s[i] && |s[..i + 1]| == i + 1
  {
  }

  lemma TailThenLast<T>(s: seq<T>)
    requires |s| >= 2
    ensures s[..|s| - 1][1..] + [s[|s| - 1]] == s[1..] && s[..|s| - 1][0] == s[0]
  {
  }

  lemma AppendThenTail<T>(s: seq<T>, x: T)
    ensures (s + [x])[0] == (if s == [] then x else s[0])
    ensures (s + [x])[1..] == (if s == [] then [] else s[1..] + [x])
  {
  }

  lemma DropLastThenAppend<T>(s: seq<T>)
    requires |s| >= 1
    ensures s[..|s| - 1] + [s[|s| - 1]] == s
  {
  }

  lemma ConcatDropLast<T>(a: seq<T>, b: seq<T>)
    requires |b| >= 1
    ensures (a + b)[..|a + b| - 1] == a + b[..|b| - 1] && (a + b)[|a + b| - 1] == b[|b| - 1]
  {
  }

  lemma ConcatEmpty<T>(a: seq<T>)
    ensures a + [] == a && [] + a == a
  {
  }

  lemma TakeAll<T>(s: seq<T>)
    ensures s[..|s|] == s
  {
  }

  /** `s.filter(y => y !== x)`, and `delete` on the keys of an object: the elements other than `x`, in their order. */
  function Without<T(==,!new)>(s: seq<T>, x: T): (r: seq<T>)
    ensures forall y :: y in r <==> y in s && y != x
    decreases |s|
  {
    if s == [] then []
    else (if s[0] == x then [] else [s[0]]) + Without(s[1..], x)
  }

  /** Dropping an element from a sequence without repeats shortens it by one when present, and keeps it without repeats. */
  lemma {:induction false} WithoutDistinct<T(!new)>(s: seq<T>, x: T)
    requires Distinct(s)
    ensures Distinct(Without(s, x))
    ensures |Without(s, x)| == if x in s then |s| - 1 else |s|
    decreases |s|
  {
    if s != [] {
      var rest := s[1..];
      assert Distinct(rest);
      WithoutDistinct(rest, x);
      var tail := Without(rest, x);
      assert s[0] !in rest;
      if s[0] != x {
        assert x in s <==> x in rest;
        DistinctCons(s[0], tail);
      } else {
        assert x !in rest;
        assert [] + tail == tail;
      }
    }
  }

  /** Dropping an element that is not there changes nothing. */
  lemma {:induction false} WithoutAbsent<T(!new)>(s: seq<T>, x: T)
    requires x !in s
    ensures Without(s, x) == s
    decreases |s|
  {
    if s != [] {
      WithoutAbsent(s[1..], x);
      assert [s[0]] + s[1..] == s;
    }
  }

  /** Dropping from a sequence with one more element at the end drops from the rest, then from that element. */
  lemma {:induction false} WithoutAppend<T(!new)>(a: seq<T>, y: T, x: T)
    ensures Without(a + [y], x) == Without(a, x) + (if y == x then [] else [y])
    decreases |a|
  {
    if a == [] {
      assert ([] + [y])[1..] == [];
      assert [y][1..] == [];
    } else {
      AppendThenTail(a, y);
      WithoutAppend(a[1..], y, x);
      ConcatAssoc(if a[0] == x then [] else [a[0]], Without(a[1..], x), if y == x then [] else [y]);
    }
  }
}

/**
 * The parts of JavaScript's string semantics the application relies on.
 * A JavaScript string is a sequence of UTF-16 code units: `length`,
 * `substring`, `split` and `trim` all work on code units, so that is the
 * element type here (a character outside the Basic Multilingual Plane is
 * two elements, its surrogate pair).
 */
module JsText {
  import opened SeqFacts

  newtype CodeUnit = x: int | 0 <= x < 0x1_0000

  type JsString = seq<CodeUnit>

  const LineFeed: CodeUnit := 10
  const TabChar: CodeUnit := 9
  const SpaceChar: CodeUnit := 32
  const QuoteChar: CodeUnit := 34
  const CommaChar: CodeUnit := 44
  const DashChar: CodeUnit := 45
  const DotChar: CodeUnit := 46
  const SemicolonChar: CodeUnit := 59

  /** `Math.min` on lengths. */
  function Min(a: nat, b: nat): nat { if a <= b then a else b }

  /** An ASCII string literal as code units. */
  function Ascii(s: string): (r: JsString)
    requires forall i :: 0 <= i < |s| ==> s[i] as int < 128
    ensures |r| == |s|
    ensures forall i :: 0 <= i < |s| ==> r[i] as int == s[i] as int
  {
    seq(|s|, i requires 0 <= i < |s| => s[i] as int as CodeUnit)
  }

  /** The code units `String.prototype.trim` removes: WhiteSpace and LineTerminator of ECMA-262. */
  predicate IsWhiteSpace(c: CodeUnit) {
    c == 0x09 || c == 0x0A || c == 0x0B || c == 0x0C || c == 0x0D || c == 0x20 ||
    c == 0xA0 || c == 0x1680 || (0x2000 <= c <= 0x200A) || c == 0x2028 || c == 0x2029 ||
    c == 0x202F || c == 0x205F || c == 0x3000 || c == 0xFEFF
  }

  predicate AllWhiteSpace(s: JsString) {
    forall i :: 0 <= i < |s| ==> IsWhiteSpace(s[i])
  }

  /** Index of the first code unit at or after `from` that is not white space (or `|s|`). */
  function SkipWhiteSpace(s: JsString, from: nat): (r: nat)
    requires from <= |s|
    ensures from <= r <= |s|
    ensures forall k :: from <= k < r ==> IsWhiteSpace(s[k])
    ensures r < |s| ==> !IsWhiteSpace(s[r])
    decreases |s| - from
  {
    if from == |s| || !IsWhiteSpace(s[from]) then from else SkipWhiteSpace(s, from + 1)
  }

  /** One past the last code unit before `end` that is not white space (or 0). */
  function SkipWhiteSpaceBack(s: JsString, end: nat): (r: nat)
    requires end <= |s|
    ensures r <= end
    ensures forall k :: r <= k < end ==> IsWhiteSpace(s[k])
    ensures r > 0 ==> !IsWhiteSpace(s[r - 1])
    decreases end
  {
    if end == 0 || !IsWhiteSpace(s[end - 1]) then end else SkipWhiteSpaceBack(s, end - 1)
  }

  /** `s.trim()`: white space cut from both ends; nothing is left exactly when `s` is all white space. */
  function Trim(s: JsString): (r: JsString)
    ensures r == [] <==> AllWhiteSpace(s)
  {
    var i := SkipWhiteSpace(s, 0);
    var j := SkipWhiteSpaceBack(s, |s|);
    if i < |s| then
      assert i < j;
      s[i..j]
    else
      []
  }

  /**
   * What `trim` keeps is an infix of `s` that neither starts nor ends with
   * white space, and everything it cuts off is white space.
   */
  lemma TrimShape(s: JsString)
    ensures var r := Trim(s);
      && (r == [] || (!IsWhiteSpace(r[0]) && !IsWhiteSpace(r[|r| - 1])))
      && exists i, j :: (0 <= i <= j <= |s| && r == s[i..j]
                         && (forall k :: 0 <= k < i ==> IsWhiteSpace(s[k]))
                         && (forall k :: j <= k < |s| ==> IsWhiteSpace(s[k])))
  {
    var i := SkipWhiteSpace(s, 0);
    var j := SkipWhiteSpaceBack(s, |s|);
    if i == |s| {
      assert s[0..0] == [];
    }
  }

  /** Trimming adds no code unit that was not there. */
  lemma TrimWithin(s: JsString)
    ensures forall x :: x in Trim(s) ==> x in s
  {
    TrimShape(s);
  }

  /** JavaScript truthiness of `s.trim()`: false exactly for blank strings. */
  predicate IsBlank(s: JsString) {
    Trim(s) == []
  }

  lemma BlankIffAllWhiteSpace(s: JsString)
    ensures IsBlank(s) <==> AllWhiteSpace(s)
  {
  }

  lemma {:induction false} BlankConcat(a: JsString, b: JsString)
    ensures IsBlank(a + b) <==> IsBlank(a) && IsBlank(b)
  {
    BlankIffAllWhiteSpace(a);
    BlankIffAllWhiteSpace(b);
    BlankIffAllWhiteSpace(a + b);
    assert forall k :: 0 <= k < |a| ==> (a + b)[k] == a[k];
    assert forall k :: 0 <= k < |b| ==> (a + b)[|a| + k] == b[k];
  }

  /** `s.substring(0, n)`: at most the first `n` code units. */
  function Prefix(s: JsString, n: nat): (r: JsString)
    ensures |r| == if |s| < n then |s| else n
    ensures r == s[..|r|]
  {
    if |s| < n then s else s[..n]
  }

  /** `s.split(sep)` for a one-code-unit separator: always at least one piece. */
  function Split(s: JsString, sep: CodeUnit): (r: seq<JsString>)
    ensures |r| >= 1
    decreases |s|
  {
    if s == [] then [[]]
    else
      var rest := Split(s[1..], sep);
      if s[0] == sep then [[]] + rest
      else [[s[0]] + rest[0]] + rest[1..]
  }

  /** `parts.join(sep)`; the join of no parts is the empty string. */
  function Join(parts: seq<JsString>, sep: JsString): JsString
    decreases |parts|
  {
    if |parts| == 0 then []
    else if |parts| == 1 then parts[0]
    else parts[0] + sep + Join(parts[1..], sep)
  }

  /** `s.split(sep)` cuts `s` at exactly the separators: there is one more piece than separators, no piece holds one. */
  lemma {:induction false} SplitPieces(s: JsString, sep: CodeUnit)
    ensures |Split(s, sep)| == multiset(s)[sep] + 1
    ensures forall k :: 0 <= k < |Split(s, sep)| ==> sep !in Split(s, sep)[k]
    decreases |s|
  {
    if s != [] {
      SplitPieces(s[1..], sep);
      assert s == [s[0]] + s[1..];
      assert multiset(s) == multiset{s[0]} + multiset(s[1..]);
      var rest := Split(s[1..], sep);
      if s[0] != sep {
        var r := Split(s, sep);
        forall k | 0 <= k < |r| ensures sep !in r[k] {
          if k == 0 { assert r[0] == [s[0]] + rest[0]; } else { assert r[k] == rest[k]; }
        }
      }
    }
  }

  /** Joining the pieces of a split with the separator gives back the original text. */
  lemma {:induction false} JoinSplit(s: JsString, sep: CodeUnit)
    ensures Join(Split(s, sep), [sep]) == s
    decreases |s|
  {
    if s != [] {
      JoinSplit(s[1..], sep);
      var rest := Split(s[1..], sep);
      if s[0] == sep {
        assert Split(s, sep) == [[]] + rest;
        assert Join([[]] + rest, [sep]) == [] + [sep] + Join(rest, [sep]) by {
          assert ([[]] + rest)[1..] == rest;
        }
      } else {
        var r := Split(s, sep);
        assert r == [[s[0]] + rest[0]] + rest[1..];
        if |rest| == 1 {
          assert r == [[s[0]] + rest[0]];
        } else {
          assert r[1..] == rest[1..];
          assert Join(rest, [sep]) == rest[0] + [sep] + Join(rest[1..], [sep]);
        }
      }
    }
  }

  /** Splitting a join gives back the parts, as long as no part holds the separator. */
  lemma {:induction false} SplitJoin(parts: seq<JsString>, sep: CodeUnit)
    requires |parts| >= 1
    requires forall k :: 0 <= k < |parts| ==> sep !in parts[k]
    ensures Split(Join(parts, [sep]), sep) == parts
    decreases |parts|
  {
    if |parts| == 1 {
      SplitNoSeparator(parts[0], sep);
    } else {
      SplitJoin(parts[1..], sep);
      SplitConcat(parts[0], Join(parts[1..], [sep]), sep);
      assert parts == [parts[0]] + parts[1..];
    }
  }

  /** A text without the separator splits into itself alone. */
  lemma {:induction false} SplitNoSeparator(s: JsString, sep: CodeUnit)
    requires sep !in s
    ensures Split(s, sep) == [s]
    decreases |s|
  {
    if s != [] {
      SplitNoSeparator(s[1..], sep);
      assert [s[0]] + s[1..] == s;
    }
  }

  /** Splitting `a + sep + b`, where `a` holds no separator, gives `a` followed by the pieces of `b`. */
  lemma {:induction false} SplitConcat(a: JsString, b: JsString, sep: CodeUnit)
    requires sep !in a
    ensures Split(a + [sep] + b, sep) == [a] + Split(b, sep)
    decreases |a|
  {
    if a == [] {
      assert [] + [sep] + b == [sep] + b;
      assert ([sep] + b)[1..] == b;
    } else {
      SplitConcat(a[1..], b, sep);
      var s := a + [sep] + b;
      assert s[1..] == a[1..] + [sep] + b;
      assert [a[0]] + a[1..] == a;
    }
  }

  /**
   * Text after the `k`-th separator never changes the first `k` pieces of a
   * split: if `t` holds at least `k` separators, `t + u` and `t` agree on them.
   */
  lemma {:induction false} SplitPrefixStable(t: JsString, u: JsString, sep: CodeUnit, k: nat)
    requires multiset(t)[sep] >= k
    ensures |Split(t, sep)| > k && |Split(t + u, sep)| > k
    ensures Split(t + u, sep)[..k] == Split(t, sep)[..k]
    decreases |t|
  {
    SplitPieces(t, sep);
    SplitPieces(t + u, sep);
    assert multiset(t + u) == multiset(t) + multiset(u);
    if t != [] && k > 0 {
      assert t == [t[0]] + t[1..];
      assert multiset(t) == multiset{t[0]} + multiset(t[1..]);
      assert (t + u)[1..] == t[1..] + u;
      if t[0] == sep {
        SplitPrefixStable(t[1..], u, sep, k - 1);
        SplitPrefixAfterSeparator(t, u, sep, k);
      } else {
        SplitPrefixStable(t[1..], u, sep, k);
        SplitPrefixAfterOther(t, u, sep, k);
      }
    }
  }

  /** The step of `SplitPrefixStable` for a text that starts with the separator. */
  lemma SplitPrefixAfterSeparator(t: JsString, u: JsString, sep: CodeUnit, k: nat)
    requires t != [] && t[0] == sep && k > 0
    requires |Split(t[1..], sep)| >= k && |Split(t[1..] + u, sep)| >= k
    requires Split(t[1..] + u, sep)[..k - 1] == Split(t[1..], sep)[..k - 1]
    ensures |Split(t, sep)| > k && |Split(t + u, sep)| > k
    ensures Split(t + u, sep)[..k] == Split(t, sep)[..k]
  {
    assert (t + u)[1..] == t[1..] + u;
    var rt := Split(t[1..], sep);
    var rtu := Split(t[1..] + u, sep);
    assert Split(t, sep) == [[]] + rt;
    assert Split(t + u, sep) == [[]] + rtu;
    assert ([[]] + rtu)[..k] == [[]] + rtu[..k - 1];
    assert ([[]] + rt)[..k] == [[]] + rt[..k - 1];
  }

  /** The step of `SplitPrefixStable` for a text that starts with another code unit. */
  lemma SplitPrefixAfterOther(t: JsString, u: JsString, sep: CodeUnit, k: nat)
    requires t != [] && t[0] != sep && k > 0
    requires |Split(t[1..], sep)| > k && |Split(t[1..] + u, sep)| > k
    requires Split(t[1..] + u, sep)[..k] == Split(t[1..], sep)[..k]
    ensures |Split(t, sep)| > k && |Split(t + u, sep)| > k
    ensures Split(t + u, sep)[..k] == Split(t, sep)[..k]
  {
    assert (t + u)[1..] == t[1..] + u;
    var rt := Split(t[1..], sep);
    var rtu := Split(t[1..] + u, sep);
    assert rtu[0] == rt[0] by { assert rtu[..k][0] == rt[..k][0]; }
    var a := Split(t, sep);
    var b := Split(t + u, sep);
    assert a == [[t[0]] + rt[0]] + rt[1..];
    assert b == [[t[0]] + rtu[0]] + rtu[1..];
    forall j | 0 <= j < k ensures a[j] == b[j] {
      if j > 0 { assert rtu[..k][j] == rt[..k][j]; }
    }
  }

  /** Every code unit of every piece of a split comes from the split text. */
  lemma {:induction false} SplitPiecesFromText(s: JsString, sep: CodeUnit, c: CodeUnit)
    requires c !in s
    ensures forall k :: 0 <= k < |Split(s, sep)| ==> c !in Split(s, sep)[k]
    decreases |s|
  {
    if s != [] {
      assert s[0] in s;
      assert forall x :: x in s[1..] ==> x in s;
      SplitPiecesFromText(s[1..], sep, c);
      var rest := Split(s[1..], sep);
      var r := Split(s, sep);
      if s[0] != sep {
        forall k | 0 <= k < |r| ensures c !in r[k] {
          if k == 0 { assert r[0] == [s[0]] + rest[0]; } else { assert r[k] == rest[k]; }
        }
      }
    }
  }

  /** A join holds a code unit only if a part or the separator holds it. */
  lemma {:induction false} JoinAvoids(parts: seq<JsString>, sep: JsString, c: CodeUnit)
    requires c !in sep
    requires forall k :: 0 <= k < |parts| ==> c !in parts[k]
    ensures c !in Join(parts, sep)
    decreases |parts|
  {
    if |parts| > 1 {
      JoinAvoids(parts[1..], sep, c);
    }
  }

  /** Joining one more part adds the separator and the part at the end. */
  lemma {:induction false} JoinAppend(parts: seq<JsString>, x: JsString, sep: JsString)
    requires |parts| >= 1
    ensures Join(parts + [x], sep) == Join(parts, sep) + sep + x
    decreases |parts|
  {
    if |parts| == 1 {
      assert (parts + [x])[1..] == [x];
    } else {
      JoinAppend(parts[1..], x, sep);
      assert (parts + [x])[1..] == parts[1..] + [x];
    }
  }

  /**
   * The last piece of `s.split(sep)` (what `pop()` returns) is the text after
   * the last separator: it holds no separator, it ends `s`, and a separator
   * stands right before it unless it is the whole of `s`.
   */
  lemma SplitLast(s: JsString, sep: CodeUnit)
    ensures var r := Split(s, sep); var last := r[|r| - 1];
      sep !in last && |last| <= |s| && last == s[|s| - |last|..]
      && (|last| < |s| ==> s[|s| - |last| - 1] == sep)
  {
    var r := Split(s, sep);
    var last := r[|r| - 1];
    SplitPieces(s, sep);
    JoinSplit(s, sep);
    if |r| >= 2 {
      var front := r[..|r| - 1];
      DropLastThenAppend(r);
      JoinAppend(front, last, [sep]);
      var head := Join(front, [sep]) + [sep];
      assert s == head + last;
      assert s[|head| - 1] == sep;
      assert s[|head|..] == last;
    }
  }

  /** `s.toLowerCase()` on the ASCII letters A-Z; every other code unit is left as it is. */
  function LowerAscii(s: JsString): (r: JsString)
    ensures |r| == |s|
    ensures forall i :: 0 <= i < |s| ==>
      r[i] == if 65 <= s[i] <= 90 then s[i] + 32 else s[i]
  {
    seq(|s|, i requires 0 <= i < |s| => if 65 <= s[i] <= 90 then s[i] + 32 else s[i])
  }

  /** `c.repeat(n)` for a single code unit `c`. */
  function Repeat(c: CodeUnit, n: nat): (r: JsString)
    ensures |r| == n && forall i :: 0 <= i < n ==> r[i] == c
  {
    seq(n, i => c)
  }

  /** Decimal digits of a natural number, most significant first and without leading zeros, as `toString()` writes them. */
  function DecimalNat(n: nat): (r: JsString)
    ensures |r| >= 1
    ensures forall i :: 0 <= i < |r| ==> 48 <= r[i] <= 57
    ensures r == [48] <==> n == 0
    ensures |r| == 1 || r[0] != 48
    decreases n
  {
    if n < 10 then [(48 + n) as CodeUnit] else DecimalNat(n / 10) + [(48 + n % 10) as CodeUnit]
  }

  /** The value of a string of decimal digits. */
  function DigitsValue(r: JsString): nat
    requires forall i :: 0 <= i < |r| ==> 48 <= r[i] <= 57
    decreases |r|
  {
    if r == [] then 0 else DigitsValue(r[..|r| - 1]) * 10 + (r[|r| - 1] - 48) as nat
  }

  /** Reading the digits back gives the number. */
  lemma {:induction false} DecimalNatValue(n: nat)
    ensures DigitsValue(DecimalNat(n)) == n
    decreases n
  {
    if n >= 10 {
      DecimalNatValue(n / 10);
      var r := DecimalNat(n);
      assert r[..|r| - 1] == DecimalNat(n / 10);
    }
  }

  /** `String(i)` for an integer, as `Date.now().toString()` gives it. */
  function DecimalInt(i: int): (r: JsString)
    ensures |r| >= 1
  {
    if i < 0 then [DashChar] + DecimalNat(-i) else DecimalNat(i)
  }

  /**
   * A playback speed. The application's speeds are multiples of one
   * hundredth (0.5, 0.75, 1, 1.25, 1.5, 2), so a speed is held as a count of
   * hundredths, which makes JavaScript's rendering of the number exact.
   */
  datatype Speed = Speed(hundredths: nat)

  /** `${speed}`: the shortest decimal form, with no trailing zeros and no trailing point. */
  function SpeedText(s: Speed): (r: JsString)
    ensures |r| >= 1
    ensures DashChar !in r
  {
    var whole := DecimalNat(s.hundredths / 100);
    var frac := s.hundredths % 100;
    if frac == 0 then whole
    else if frac % 10 == 0 then whole + [DotChar, (48 + frac / 10) as CodeUnit]
    else whole + [DotChar, (48 + frac / 10) as CodeUnit, (48 + frac % 10) as CodeUnit]
  }
}
