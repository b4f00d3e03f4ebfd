/**
 * The JavaScript built-ins the core relies on: `parseInt(s, 10)`, the
 * decimal rendering of an integer (`String(n)`, template literals),
 * `String.prototype.toLowerCase`, `String.prototype.includes` and
 * `Array.prototype.slice`.
 */
module JsBuiltins {
  import opened Wrappers

  // ---------------------------------------------------------------------
  // parseInt(s, 10)
  // ---------------------------------------------------------------------

  /** ECMAScript WhiteSpace and LineTerminator code points, which parseInt skips. */
  predicate IsWhiteSpace(c: char)
  {
    var n := c as int;
    n == 0x09 || n == 0x0A || n == 0x0B || n == 0x0C || n == 0x0D || n == 0x20
    || n == 0xA0 || n == 0x1680 || (0x2000 <= n <= 0x200A) || n == 0x2028
    || n == 0x2029 || n == 0x202F || n == 0x205F || n == 0x3000 || n == 0xFEFF
  }

  predicate IsDigit(c: char)
  {
    '0' <= c <= '9'
  }

  predicate AllDigits(s: string)
  {
    forall i :: 0 <= i < |s| ==> IsDigit(s[i])
  }

  /** Drops leading white space. */
  function TrimStart(s: string): (r: string)
    ensures |r| <= |s| && r == s[|s| - |r|..]
    ensures forall i :: 0 <= i < |s| - |r| ==> IsWhiteSpace(s[i])
    ensures r == [] || !IsWhiteSpace(r[0])
  {
    if s != [] && IsWhiteSpace(s[0]) then TrimStart(s[1..]) else s
  }

  /** The longest prefix of `s` made of decimal digits. */
  function LeadingDigits(s: string): (r: string)
    ensures |r| <= |s| && r == s[..|r|]
    ensures AllDigits(r)
    ensures |r| == |s| || !IsDigit(s[|r|])
  {
    if s != [] && IsDigit(s[0]) then [s[0]] + LeadingDigits(s[1..]) else []
  }

  function DigitValue(c: char): (d: nat)
    requires IsDigit(c)
    ensures d < 10
  {
    c as int - '0' as int
  }

  function DigitChar(d: nat): (c: char)
    requires d < 10
    ensures IsDigit(c) && DigitValue(c) == d
  {
    ('0' as int + d) as char
  }

  /** The value of a string of decimal digits, most significant first. */
  function DigitsValue(ds: string): nat
    requires AllDigits(ds)
  {
    if ds == [] then 0 else DigitsValue(ds[..|ds| - 1]) * 10 + DigitValue(ds[|ds| - 1])
  }

  /** The string after an optional leading sign. */
  function DropSign(t: string): (u: string)
    ensures if t != [] && (t[0] == '-' || t[0] == '+') then u == t[1..] else u == t
  {
    if t != [] && (t[0] == '-' || t[0] == '+') then t[1..] else t
  }

  /**
   * `parseInt(s, 10)`: skip white space, read an optional sign, then the
   * longest run of decimal digits. `None` stands for NaN, the result when
   * no digit follows the sign; anything after the digits is ignored.
   */
  function ParseInt(s: string): (r: Option<int>)
    ensures r.None? <==> LeadingDigits(DropSign(TrimStart(s))) == []
  {
    var t := TrimStart(s);
    var negative := t != [] && t[0] == '-';
    var digits := LeadingDigits(DropSign(t));
    if digits == [] then None
    else if negative then Some(-(DigitsValue(digits) as int))
    else Some(DigitsValue(digits))
  }

  // ---------------------------------------------------------------------
  // Decimal rendering of an integer, as `${n}` and String(n) produce it
  // ---------------------------------------------------------------------

  function NatToDigits(n: nat): (r: string)
    ensures |r| > 0 && AllDigits(r)
  {
    if n < 10 then [DigitChar(n)] else NatToDigits(n / 10) + [DigitChar(n % 10)]
  }

  /** `String(n)`: the digits of |n|, after a minus sign when n is negative. */
  function DecimalString(n: int): (r: string)
    ensures n >= 0 ==> AllDigits(r) && r == NatToDigits(n)
    ensures n < 0 ==> |r| > 1 && r[0] == '-' && r[1..] == NatToDigits(-n)
  {
    if n < 0 then "-" + NatToDigits(-n) else NatToDigits(n)
  }

  lemma {:induction false} DigitsValueOfNatToDigits(n: nat)
    ensures DigitsValue(NatToDigits(n)) == n
  {
    if n >= 10 {
      var ds := NatToDigits(n);
      assert ds[..|ds| - 1] == NatToDigits(n / 10);
      DigitsValueOfNatToDigits(n / 10);
    }
  }

  /** A run of digits followed by a non-digit is exactly what LeadingDigits reads. */
  lemma {:induction false} LeadingDigitsOfRun(ds: string, rest: string)
    requires AllDigits(ds)
    requires rest == [] || !IsDigit(rest[0])
    ensures LeadingDigits(ds + rest) == ds
  {
    if ds != [] {
      assert (ds + rest)[1..] == ds[1..] + rest;
      LeadingDigitsOfRun(ds[1..], rest);
    }
  }

  /**
   * Reading back the decimal text of an integer gives the integer, even when
   * other text follows that does not start with a digit: the path
   * `/items/${id}` that the client builds finds the number `id` again.
   */
  lemma ParseIntOfDecimal(n: int, rest: string)
    requires rest == [] || !IsDigit(rest[0])
    ensures ParseInt(DecimalString(n) + rest) == Some(n)
  {
    var m: nat := if n < 0 then -n else n;
    var ds := NatToDigits(m);
    var s := DecimalString(n) + rest;
    assert !IsWhiteSpace(s[0]);
    assert TrimStart(s) == s;
    if n < 0 {
      assert s == "-" + (ds + rest);
      assert DropSign(s) == ds + rest;
    } else {
      assert s == ds + rest;
      assert DropSign(s) == ds + rest;
    }
    LeadingDigitsOfRun(ds, rest);
    DigitsValueOfNatToDigits(m);
  }

  lemma ParseIntOfDecimalString(n: int)
    ensures ParseInt(DecimalString(n)) == Some(n)
  {
    ParseIntOfDecimal(n, "");
    assert DecimalString(n) + "" == DecimalString(n);
  }

  /** A string that does not start with a digit after white space and a sign is NaN. */
  lemma ParseIntNoDigits(s: string)
    requires var u := DropSign(TrimStart(s)); u == [] || !IsDigit(u[0])
    ensures ParseInt(s) == None
  {
  }

  // ---------------------------------------------------------------------
  // String.prototype.toLowerCase, for Basic Latin and basic Cyrillic capitals
  // ---------------------------------------------------------------------

  /** Upper-case letters whose lower-case form is modelled: A-Z and U+0400..U+042F. */
  predicate IsUpper(c: char)
  {
    ('A' <= c <= 'Z') || (0x400 <= c as int <= 0x42F)
  }

  function LowerChar(c: char): (r: char)
    ensures !IsUpper(r)
    ensures !IsUpper(c) ==> r == c
  {
    if 'A' <= c <= 'Z' then (c as int + 0x20) as char
    else if 0x400 <= c as int < 0x410 then (c as int + 0x50) as char
    else if 0x410 <= c as int <= 0x42F then (c as int + 0x20) as char
    else c
  }

  function ToLower(s: string): (r: string)
    ensures |r| == |s|
    ensures forall i :: 0 <= i < |s| ==> !IsUpper(r[i])
    ensures forall i :: 0 <= i < |s| && !IsUpper(s[i]) ==> r[i] == s[i]
  {
    seq(|s|, i requires 0 <= i < |s| => LowerChar(s[i]))
  }

  /**
   * Each modelled capital becomes the small letter at the same place of its
   * alphabet: A-Z to a-z, А-Я to а-я, and Ѐ-Џ to ѐ-џ.
   */
  lemma LowerCaseLetters(c: char)
    ensures 'A' <= c <= 'Z' ==> 'a' <= LowerChar(c) <= 'z' && LowerChar(c) as int - 'a' as int == c as int - 'A' as int
    ensures 'А' <= c <= 'Я' ==> 'а' <= LowerChar(c) <= 'я' && LowerChar(c) as int - 'а' as int == c as int - 'А' as int
    ensures 'Ѐ' <= c <= 'Џ' ==> 'ѐ' <= LowerChar(c) <= 'џ' && LowerChar(c) as int - 'ѐ' as int == c as int - 'Ѐ' as int
  {
  }

  /** Two names as a search lower-cases them. */
  lemma LowerCaseExamples()
    ensures ToLower("Toyota Camry") == "toyota camry"
    ensures ToLower("КВАРТИРА") == "квартира"
  {
  }

  lemma ToLowerIdempotent(s: string)
    ensures ToLower(ToLower(s)) == ToLower(s)
  {
  }

  // ---------------------------------------------------------------------
  // String.prototype.includes
  // ---------------------------------------------------------------------

  predicate OccursAt(s: string, t: string, i: nat)
    requires i + |t| <= |s|
  {
    s[i..i + |t|] == t
  }

  /** `s.includes(t)`: `t` occurs in `s` at some position; the empty string occurs everywhere. */
  function Includes(s: string, t: string): (r: bool)
    ensures r <==> exists i: nat :: i + |t| <= |s| && OccursAt(s, t, i)
  {
    if |s| < |t| then false
    else if s[..|t|] == t then
      assert OccursAt(s, t, 0);
      true
    else
      var r := Includes(s[1..], t);
      assert forall i: nat :: i + |t| <= |s[1..]| ==> (OccursAt(s[1..], t, i) <==> OccursAt(s, t, i + 1));
      assert r ==> exists i: nat :: i + |t| <= |s| && OccursAt(s, t, i);
      assert (exists i: nat :: i + |t| <= |s| && OccursAt(s, t, i)) ==> r by {
        if exists i: nat :: i + |t| <= |s| && OccursAt(s, t, i) {
          var i: nat :| i + |t| <= |s| && OccursAt(s, t, i);
          assert i != 0;
          assert OccursAt(s[1..], t, i - 1);
        }
      }
      r
  }

  // ---------------------------------------------------------------------
  // Array.prototype.slice
  // ---------------------------------------------------------------------

  /** How slice reads a start or end argument: negative counts from the end; clamped to [0, len]. */
  function RelativeIndex(i: int, len: nat): (r: nat)
    ensures r <= len
    ensures 0 <= i ==> r == if i <= len then i else len
  {
    if i < 0 then (if len + i < 0 then 0 else len + i)
    else if i <= len then i else len
  }

  /** `s.slice(start, end)`. */
  function Slice<T>(s: seq<T>, start: int, end: int): (r: seq<T>)
    ensures |r| <= |s|
    ensures 0 <= start <= end ==>
      var lo := if start <= |s| then start else |s|;
      var hi := if end <= |s| then end else |s|;
      r == s[lo..hi]
  {
    var lo := RelativeIndex(start, |s|);
    var hi := RelativeIndex(end, |s|);
    if lo < hi then s[lo..hi] else []
  }

  // ---------------------------------------------------------------------
  // Array.prototype.filter
  // ---------------------------------------------------------------------

  /** `s.filter(keep)`: the elements `keep` accepts, in their order. */
  function Filter<T>(s: seq<T>, keep: T -> bool): (r: seq<T>)
    ensures |r| <= |s|
    ensures forall k :: 0 <= k < |r| ==> r[k] in s && keep(r[k])
    ensures forall i :: 0 <= i < |s| && keep(s[i]) ==> s[i] in r
  {
    if s == [] then []
    else
      var tail := Filter(s[1..], keep);
      assert forall i :: 1 <= i < |s| ==> s[i] == s[1..][i - 1];
      if keep(s[0]) then [s[0]] + tail else tail
  }

  /** Filtering a concatenation filters each part. */
  lemma {:induction false} FilterConcat<T>(a: seq<T>, b: seq<T>, keep: T -> bool)
    ensures Filter(a + b, keep) == Filter(a, keep) + Filter(b, keep)
  {
    if a == [] {
      assert a + b == b;
    } else {
      assert (a + b)[0] == a[0];
      assert (a + b)[1..] == a[1..] + b;
      FilterConcat(a[1..], b, keep);
    }
  }

  /**
   * `r` is `s` read at the strictly increasing positions `idx`, and those
   * positions are exactly the ones whose element `keep` accepts.
   */
  ghost predicate SelectsKept<T>(s: seq<T>, keep: T -> bool, r: seq<T>, idx: seq<nat>)
  {
    && |idx| == |r|
    && (forall k :: 0 <= k < |idx| ==> idx[k] < |s| && r[k] == s[idx[k]])
    && (forall k, l :: 0 <= k < l < |idx| ==> idx[k] < idx[l])
    && (forall k :: 0 <= k < |idx| ==> keep(s[idx[k]]))
    && (forall i :: 0 <= i < |s| && keep(s[i]) ==> exists k :: 0 <= k < |idx| && idx[k] == i)
  }

  function Shift(idx: seq<nat>): (r: seq<nat>)
    ensures |r| == |idx|
    ensures forall k :: 0 <= k < |idx| ==> r[k] == idx[k] + 1
  {
    seq(|idx|, k requires 0 <= k < |idx| => idx[k] + 1)
  }

  lemma ShiftSelects<T>(s: seq<T>, keep: T -> bool, tail: seq<T>, rest: seq<nat>)
    requires s != [] && SelectsKept(s[1..], keep, tail, rest)
    ensures var shifted := Shift(rest);
      && (forall k :: 0 <= k < |shifted| ==> 1 <= shifted[k] < |s| && tail[k] == s[shifted[k]])
      && (forall k, l :: 0 <= k < l < |shifted| ==> shifted[k] < shifted[l])
      && (forall k :: 0 <= k < |shifted| ==> keep(s[shifted[k]]))
      && (forall i :: 1 <= i < |s| && keep(s[i]) ==> exists k :: 0 <= k < |shifted| && shifted[k] == i)
  {
    ShiftSelectsPositions(s, keep, tail, rest);
    ShiftSelectsComplete(s, keep, tail, rest);
  }

  /** The shifted positions point into `s` at the same kept elements. */
  lemma ShiftSelectsPositions<T>(s: seq<T>, keep: T -> bool, tail: seq<T>, rest: seq<nat>)
    requires s != [] && SelectsKept(s[1..], keep, tail, rest)
    ensures var shifted := Shift(rest);
      forall k :: 0 <= k < |shifted| ==> 1 <= shifted[k] < |s| && tail[k] == s[shifted[k]] && keep(s[shifted[k]])
  {
    var shifted := Shift(rest);
    forall k | 0 <= k < |shifted| ensures 1 <= shifted[k] < |s| && tail[k] == s[shifted[k]] && keep(s[shifted[k]]) {
      assert s[1..][rest[k]] == s[rest[k] + 1];
    }
  }

  /** Every kept position after the first is among the shifted ones. */
  lemma ShiftSelectsComplete<T>(s: seq<T>, keep: T -> bool, tail: seq<T>, rest: seq<nat>)
    requires s != [] && SelectsKept(s[1..], keep, tail, rest)
    ensures var shifted := Shift(rest);
      forall i :: 1 <= i < |s| && keep(s[i]) ==> exists k :: 0 <= k < |shifted| && shifted[k] == i
  {
    var shifted := Shift(rest);
    forall i | 1 <= i < |s| && keep(s[i]) ensures exists k :: 0 <= k < |shifted| && shifted[k] == i {
      assert s[1..][i - 1] == s[i];
      var k :| 0 <= k < |rest| && rest[k] == i - 1;
      assert shifted[k] == i;
    }
  }


  /** Selecting the shifted positions, and position 0 when it is kept, selects from the whole of `s`. */
  lemma ConsSelects<T>(s: seq<T>, keep: T -> bool, tail: seq<T>, shifted: seq<nat>)
    requires s != [] && |shifted| == |tail|
    requires forall k :: 0 <= k < |shifted| ==> 1 <= shifted[k] < |s| && tail[k] == s[shifted[k]]
    requires forall k, l :: 0 <= k < l < |shifted| ==> shifted[k] < shifted[l]
    requires forall k :: 0 <= k < |shifted| ==> keep(s[shifted[k]])
    requires forall i :: 1 <= i < |s| && keep(s[i]) ==> exists k :: 0 <= k < |shifted| && shifted[k] == i
    ensures keep(s[0]) ==> SelectsKept(s, keep, [s[0]] + tail, [0] + shifted)
    ensures !keep(s[0]) ==> SelectsKept(s, keep, tail, shifted)
  {
    if keep(s[0]) {
      ConsSelectsKept(s, keep, tail, shifted);
    }
  }

  lemma ConsSelectsKept<T>(s: seq<T>, keep: T -> bool, tail: seq<T>, shifted: seq<nat>)
    requires s != [] && |shifted| == |tail|
    requires forall k :: 0 <= k < |shifted| ==> 1 <= shifted[k] < |s| && tail[k] == s[shifted[k]]
    requires forall k, l :: 0 <= k < l < |shifted| ==> shifted[k] < shifted[l]
    requires forall k :: 0 <= k < |shifted| ==> keep(s[shifted[k]])
    requires forall i :: 1 <= i < |s| && keep(s[i]) ==> exists k :: 0 <= k < |shifted| && shifted[k] == i
    requires keep(s[0])
    ensures SelectsKept(s, keep, [s[0]] + tail, [0] + shifted)
  {
    var idx, r := [0] + shifted, [s[0]] + tail;
    forall k | 0 <= k < |idx| ensures idx[k] < |s| && r[k] == s[idx[k]] && keep(s[idx[k]]) {
      if k > 0 { assert idx[k] == shifted[k - 1] && r[k] == tail[k - 1]; }
    }
    forall k, l | 0 <= k < l < |idx| ensures idx[k] < idx[l] {
      assert idx[l] == shifted[l - 1];
      if k > 0 { assert idx[k] == shifted[k - 1]; }
    }
    forall i | 0 <= i < |s| && keep(s[i]) ensures exists k :: 0 <= k < |idx| && idx[k] == i {
      if i == 0 {
        assert idx[0] == 0;
      } else {
        var k :| 0 <= k < |shifted| && shifted[k] == i;
        assert idx[k + 1] == i;
      }
    }
  }


  /**
   * The output of filter is the input at a strictly increasing run of
   * indices, and those are exactly the positions of the accepted elements.
   */
  lemma {:induction false} FilterIndices<T>(s: seq<T>, keep: T -> bool) returns (idx: seq<nat>)
    ensures SelectsKept(s, keep, Filter(s, keep), idx)
  {
    if s == [] {
      idx := [];
    } else {
      var tail := Filter(s[1..], keep);
      var rest := FilterIndices(s[1..], keep);
      ShiftSelects(s, keep, tail, rest);
      var shifted := Shift(rest);
      ConsSelects(s, keep, tail, shifted);
      idx := if keep(s[0]) then [0] + shifted else shifted;
    }
  }
}
