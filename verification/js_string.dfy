/**
 * The few JavaScript string built-ins the plugin relies on:
 * `String.prototype.split` on a one-character separator (with `IndexOf`, a
 * helper for it), `replace(/\D/g, '')` and `parseInt`, together with the facts
 * about them that the rest of the model uses.
 */
module JsString {
  import opened Optional

  /** Index of the first `c` in `s`, or `|s|` when `s` holds none. */
  function IndexOf(s: string, c: char): (i: nat)
    ensures i <= |s|
    ensures c !in s[..i]
    ensures i < |s| ==> s[i] == c
  {
    if s == [] then 0
    else if s[0] == c then 0
    else
      var j := IndexOf(s[1..], c);
      assert s[..j + 1] == [s[0]] + s[1..][..j];
      1 + j
  }

  /** The two conditions of IndexOf's contract pin its result down. */
  lemma IndexOfUnique(s: string, c: char, k: nat)
    requires k <= |s| && c !in s[..k]
    requires k < |s| ==> s[k] == c
    ensures IndexOf(s, c) == k
  {
  }

  /** `s.split(sep)`: the pieces between the separators, at least one of them. */
  function Split(s: string, sep: char): (fields: seq<string>)
    ensures |fields| >= 1
    ensures forall k :: 0 <= k < |fields| ==> sep !in fields[k]
    decreases |s|
  {
    var i := IndexOf(s, sep);
    if i == |s| then [s]
    else [s[..i]] + Split(s[i + 1..], sep)
  }

  /** `fields.join(sep)`, the inverse of Split. */
  function Join(fields: seq<string>, sep: char): (s: string)
    requires |fields| >= 1
  {
    if |fields| == 1 then fields[0]
    else fields[0] + [sep] + Join(fields[1..], sep)
  }

  /** Joining the pieces of a split gives back the string. */
  lemma {:induction false} JoinSplit(s: string, sep: char)
    ensures Join(Split(s, sep), sep) == s
    decreases |s|
  {
    var i := IndexOf(s, sep);
    if i < |s| {
      var rest := s[i + 1..];
      JoinSplit(rest, sep);
      assert Split(s, sep)[1..] == Split(rest, sep);
      assert s == s[..i] + [sep] + rest;
    }
  }

  /** Splitting a join of separator-free pieces gives back the pieces. */
  lemma {:induction false} SplitJoin(fields: seq<string>, sep: char)
    requires |fields| >= 1
    requires forall k :: 0 <= k < |fields| ==> sep !in fields[k]
    ensures Split(Join(fields, sep), sep) == fields
    decreases |fields|
  {
    var s := Join(fields, sep);
    if |fields| == 1 {
      assert s[..|s|] == s;
      IndexOfUnique(s, sep, |s|);
    } else {
      var tail := Join(fields[1..], sep);
      assert sep !in fields[0];
      assert s[..|fields[0]|] == fields[0];
      IndexOfUnique(s, sep, |fields[0]|);
      assert s[|fields[0]| + 1..] == tail;
      SplitJoin(fields[1..], sep);
    }
  }

  /** The first piece is the text before the first separator, all of `s` when there is none. */
  lemma FirstField(s: string, sep: char)
    ensures Split(s, sep)[0] == s[..IndexOf(s, sep)]
    ensures sep !in s ==> Split(s, sep) == [s]
  {
    if sep !in s {
      assert s[..|s|] == s;
      IndexOfUnique(s, sep, |s|);
    }
  }

  /** After the first separator, the remaining pieces are the split of what follows it. */
  lemma LaterFields(s: string, sep: char)
    requires sep in s
    ensures IndexOf(s, sep) < |s|
    ensures Split(s, sep)[1..] == Split(s[IndexOf(s, sep) + 1..], sep)
  {
    assert s[..|s|] == s;
  }

  /**
   * The first piece equals a separator-free `u` exactly when `s` is `u`, or
   * starts with `u` followed by the separator.
   */
  lemma FirstFieldEquals(s: string, sep: char, u: string)
    requires sep !in u
    ensures s[..IndexOf(s, sep)] == u <==> s == u || u + [sep] <= s
  {
    var i := IndexOf(s, sep);
    if s[..i] == u && i < |s| {
      assert u + [sep] == s[..i + 1];
    }
    if s == u {
      assert s[..|s|] == s;
      IndexOfUnique(s, sep, |s|);
    } else if u + [sep] <= s {
      assert s[..|u|] == u;
      IndexOfUnique(s, sep, |u|);
    }
  }

  predicate IsDigit(c: char) {
    '0' <= c <= '9'
  }

  predicate AllDigits(s: string) {
    forall k :: 0 <= k < |s| ==> IsDigit(s[k])
  }

  /** `s.replace(/\D/g, '')`: the digits of `s`, in order, every other character dropped. */
  function KeepDigits(s: string): (r: string)
    ensures |r| <= |s|
    ensures AllDigits(r)
  {
    if s == [] then []
    else (if IsDigit(s[0]) then [s[0]] else []) + KeepDigits(s[1..])
  }

  /** Dropping the non-digits of a concatenation drops them piece by piece, so order is kept. */
  lemma {:induction false} KeepDigitsAppend(a: string, b: string)
    ensures KeepDigits(a + b) == KeepDigits(a) + KeepDigits(b)
    decreases |a|
  {
    if a != [] {
      assert (a + b)[1..] == a[1..] + b;
      KeepDigitsAppend(a[1..], b);
    } else {
      assert a + b == b;
    }
  }

  /** A string made only of digits loses nothing; hence KeepDigits is idempotent. */
  lemma {:induction false} KeepDigitsOfDigits(s: string)
    requires AllDigits(s)
    ensures KeepDigits(s) == s
    decreases |s|
  {
    if s != [] {
      KeepDigitsOfDigits(s[1..]);
    }
  }

  /** KeepDigits yields nothing exactly when `s` holds no digit. */
  lemma {:induction false} KeepDigitsEmpty(s: string)
    ensures KeepDigits(s) == [] <==> forall k :: 0 <= k < |s| ==> !IsDigit(s[k])
    decreases |s|
  {
    if s != [] {
      KeepDigitsEmpty(s[1..]);
      assert forall k :: 1 <= k < |s| ==> s[k] == s[1..][k - 1];
    }
  }

  function DigitValue(c: char): (d: nat)
    requires IsDigit(c)
    ensures d <= 9
  {
    (c as int) - ('0' as int)
  }

  function Pow10(n: nat): (p: nat)
    ensures p >= 1
  {
    if n == 0 then 1 else 10 * Pow10(n - 1)
  }

  /** The base-10 number a digit string denotes; it has at most `|ds|` digits. */
  function DecimalValue(ds: string): (v: nat)
    requires AllDigits(ds)
    ensures v < Pow10(|ds|)
  {
    if ds == [] then 0
    else
      var init := ds[..|ds| - 1];
      assert AllDigits(init);
      10 * DecimalValue(init) + DigitValue(ds[|ds| - 1])
  }

  lemma AllDigitsAppend(a: string, b: string)
    requires AllDigits(a) && AllDigits(b)
    ensures AllDigits(a + b)
  {
    forall k | 0 <= k < |a + b| ensures IsDigit((a + b)[k]) {
      if k >= |a| { assert (a + b)[k] == b[k - |a|]; }
    }
  }

  lemma ShiftDigit(x: int, y: int, p: int, d: int)
    ensures 10 * (x * p + y) + d == x * (10 * p) + (10 * y + d)
  {
  }

  /** The value of `a + b` is that of `a` shifted left by `|b|` digits, plus that of `b`. */
  lemma {:induction false} DecimalValueAppend(a: string, b: string)
    requires AllDigits(a) && AllDigits(b)
    ensures AllDigits(a + b)
    ensures DecimalValue(a + b) == DecimalValue(a) * Pow10(|b|) + DecimalValue(b)
    decreases |b|
  {
    AllDigitsAppend(a, b);
    if b == [] {
      assert a + b == a;
    } else {
      var init := b[..|b| - 1];
      var last := b[|b| - 1];
      assert AllDigits(init);
      assert (a + b)[..|a + b| - 1] == a + init;
      assert (a + b)[|a + b| - 1] == last;
      DecimalValueAppend(a, init);
      var x, y, p, d := DecimalValue(a), DecimalValue(init), Pow10(|init|), DigitValue(last);
      assert DecimalValue(a + b) == 10 * DecimalValue(a + init) + d;
      assert DecimalValue(b) == 10 * y + d;
      assert Pow10(|b|) == 10 * p;
      ShiftDigit(x, y, p, d);
    }
  }

  /** Leading zeros do not change the value, as with `parseInt('007') === 7`. */
  lemma LeadingZero(ds: string)
    requires AllDigits(ds)
    ensures AllDigits("0" + ds)
    ensures DecimalValue("0" + ds) == DecimalValue(ds)
  {
    DecimalValueAppend("0", ds);
  }

  /** The longest prefix of `s` made of digits. */
  function LeadingDigits(s: string): (ds: string)
    ensures AllDigits(ds)
    ensures ds <= s
    ensures |ds| < |s| ==> !IsDigit(s[|ds|])
  {
    if s == [] || !IsDigit(s[0]) then []
    else [s[0]] + LeadingDigits(s[1..])
  }

  /**
   * `parseInt(s)` for a string without leading blanks, sign or radix prefix:
   * the value of its leading digits, `None` (NaN) when it starts with none.
   * On a string made only of digits it reads all of it.
   */
  function ParseInt(s: string): (r: Option<nat>)
    ensures r.None? <==> s == [] || !IsDigit(s[0])
    ensures AllDigits(s) && s != [] ==> r == Some(DecimalValue(s))
  {
    var ds := LeadingDigits(s);
    assert AllDigits(s) ==> ds == s;
    if ds == [] then None else Some(DecimalValue(ds))
  }
}
