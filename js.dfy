/** The handful of JavaScript values and string built-ins the modelled code relies on.
    Strings are Dafny strings; case mapping covers the ASCII letters only. */
module Js {

  /** `undefined`/`null` versus a present value. */
  datatype Option<+T> = None | Some(value: T)

  /** A possibly absent string used as a condition: `undefined`, `null` and `""` are falsy. */
  predicate Truthy(o: Option<string>) {
    o.Some? && o.value != ""
  }

  /** `a || b` for a possibly absent string: the first operand when it is truthy. */
  function OrElse(a: Option<string>, b: string): (r: string)
    ensures Truthy(a) ==> r == a.value
    ensures !Truthy(a) ==> r == b
  {
    if Truthy(a) then a.value else b
  }

  predicate IsLower(c: char) { 'a' <= c <= 'z' }
  predicate IsUpper(c: char) { 'A' <= c <= 'Z' }

  /** `toUpperCase` of one character. */
  function UpperChar(c: char): char {
    if IsLower(c) then (c as int - 32) as char else c
  }

  /** `toLowerCase` of one character. */
  function LowerChar(c: char): char {
    if IsUpper(c) then (c as int + 32) as char else c
  }

  /** `String.prototype.toUpperCase`. */
  function ToUpper(s: string): string {
    if s == [] then [] else [UpperChar(s[0])] + ToUpper(s[1..])
  }

  /** `String.prototype.toLowerCase`. */
  function ToLower(s: string): string {
    if s == [] then [] else [LowerChar(s[0])] + ToLower(s[1..])
  }

  /** Upper-casing maps each character on its own and leaves no lower-case letter. */
  lemma {:induction false} ToUpperCharwise(s: string)
    ensures |ToUpper(s)| == |s|
    ensures forall i :: 0 <= i < |s| ==> ToUpper(s)[i] == UpperChar(s[i])
    ensures forall i :: 0 <= i < |s| ==> !IsLower(ToUpper(s)[i])
  {
    if s != [] {
      ToUpperCharwise(s[1..]);
    }
  }

  /** Upper-casing a concatenation upper-cases each part. */
  lemma {:induction false} ToUpperAppend(a: string, b: string)
    ensures ToUpper(a + b) == ToUpper(a) + ToUpper(b)
  {
    if a != [] {
      assert (a + b)[1..] == a[1..] + b;
      ToUpperAppend(a[1..], b);
    } else {
      assert a + b == b;
    }
  }

  /** Lower-casing maps each character on its own and leaves no upper-case letter. */
  lemma {:induction false} ToLowerCharwise(s: string)
    ensures |ToLower(s)| == |s|
    ensures forall i :: 0 <= i < |s| ==> ToLower(s)[i] == LowerChar(s[i])
    ensures forall i :: 0 <= i < |s| ==> !IsUpper(ToLower(s)[i])
  {
    if s != [] {
      ToLowerCharwise(s[1..]);
    }
  }

  /** `s.charAt(0).toUpperCase() + s.slice(1)`: `charAt(0)` of the empty string is empty. */
  function Capitalize(s: string): string {
    if s == [] then [] else [UpperChar(s[0])] + s[1..]
  }

  /** Only the first character may change, and it is never left a lower-case letter. */
  lemma CapitalizeChangesOnlyFirst(s: string)
    ensures |Capitalize(s)| == |s|
    ensures forall i :: 1 <= i < |s| ==> Capitalize(s)[i] == s[i]
    ensures s != [] ==> !IsLower(Capitalize(s)[0])
    ensures s != [] && !IsLower(s[0]) ==> Capitalize(s) == s
  {
  }

  /** Capitalising twice is capitalising once. */
  lemma CapitalizeIdempotent(s: string)
    ensures Capitalize(Capitalize(s)) == Capitalize(s)
  {
  }

  /** Index of the first occurrence of `c` in `s`. */
  function FirstIndex(s: string, c: char): (i: nat)
    requires c in s
    ensures i < |s| && s[i] == c
    ensures c !in s[..i]
  {
    if s[0] == c then 0 else 1 + FirstIndex(s[1..], c)
  }

  /** `s.replace(from, to)` with a one-character string pattern. */
  function ReplaceFirst(s: string, from: char, to: char): (r: string)
    ensures |r| == |s|
  {
    if s == [] then []
    else if s[0] == from then [to] + s[1..]
    else [s[0]] + ReplaceFirst(s[1..], from, to)
  }

  /** Only the first occurrence is replaced: without the character nothing changes, and
      otherwise the string is the same but for that one position. */
  lemma {:induction false} ReplaceFirstOnlyFirst(s: string, from: char, to: char)
    ensures from !in s ==> ReplaceFirst(s, from, to) == s
    ensures from in s ==> ReplaceFirst(s, from, to) == s[..FirstIndex(s, from)] + [to] + s[FirstIndex(s, from) + 1..]
  {
    if s == [] {
    } else if s[0] == from {
      assert s[..0] == [];
    } else {
      assert s == [s[0]] + s[1..];
      ReplaceFirstOnlyFirst(s[1..], from, to);
      if from in s[1..] {
        var j := FirstIndex(s[1..], from);
        assert FirstIndex(s, from) == 1 + j;
        assert s[..1 + j] == [s[0]] + s[1..][..j];
        assert s[1..][j + 1..] == s[j + 2..];
      }
    }
  }

  /** The same, position by position: the first occurrence becomes `to`, every other
      character stays. */
  lemma {:induction false} ReplaceFirstPointwise(s: string, from: char, to: char)
    ensures forall i :: 0 <= i < |s| ==>
      ReplaceFirst(s, from, to)[i] == if from in s && i == FirstIndex(s, from) then to else s[i]
  {
    if s != [] && s[0] != from {
      ReplaceFirstPointwise(s[1..], from, to);
      var r := ReplaceFirst(s, from, to);
      assert from in s <==> from in s[1..] by {
        assert s == [s[0]] + s[1..];
      }
      forall i | 0 <= i < |s|
        ensures r[i] == if from in s && i == FirstIndex(s, from) then to else s[i]
      {
        if i > 0 {
          assert r[i] == ReplaceFirst(s[1..], from, to)[i - 1];
          assert s[i] == s[1..][i - 1];
        }
      }
    }
  }

  /** `s.padStart(n, [c])`: fill on the left up to `n` characters; a longer string is kept whole. */
  function PadStart(s: string, n: nat, c: char): (r: string)
    ensures |r| == if |s| >= n then |s| else n
    ensures r[|r| - |s|..] == s
    ensures forall i :: 0 <= i < |r| - |s| ==> r[i] == c
  {
    if |s| >= n then s else seq(n - |s|, _ => c) + s
  }

  function DigitChar(d: nat): (c: char)
    requires d < 10
    ensures '0' <= c <= '9'
  {
    ('0' as int + d) as char
  }

  /** `n.toString()` for a non-negative integer: its decimal digits, most significant first. */
  function Decimal(n: nat): (r: string)
    ensures 1 <= |r|
    ensures forall i :: 0 <= i < |r| ==> '0' <= r[i] <= '9'
  {
    if n < 10 then [DigitChar(n)] else Decimal(n / 10) + [DigitChar(n % 10)]
  }

  /** The number a string of decimal digits denotes. */
  function DigitsValue(s: string): nat
    requires forall i :: 0 <= i < |s| ==> '0' <= s[i] <= '9'
  {
    if s == [] then 0 else 10 * DigitsValue(s[..|s| - 1]) + (s[|s| - 1] as int - '0' as int)
  }

  /** Reading the digits back gives the number: `toString` loses nothing. */
  lemma {:induction false} DecimalRoundTrip(n: nat)
    ensures DigitsValue(Decimal(n)) == n
  {
    var r := Decimal(n);
    if n >= 10 {
      DecimalRoundTrip(n / 10);
      assert r[..|r| - 1] == Decimal(n / 10);
    }
  }

  /** Leading zeros do not change the number a string of digits denotes. */
  lemma {:induction false} LeadingZero(s: string)
    requires forall i :: 0 <= i < |s| ==> '0' <= s[i] <= '9'
    ensures DigitsValue(['0'] + s) == DigitsValue(s)
    decreases |s|
  {
    var z := ['0'] + s;
    if s != [] {
      assert z[..|z| - 1] == ['0'] + s[..|s| - 1];
      LeadingZero(s[..|s| - 1]);
    } else {
      assert z[..|z| - 1] == [];
    }
  }

  /** `n.toString()` for any integer: a minus sign before the digits of a negative number. */
  function IntToString(n: int): (r: string)
    ensures n >= 0 ==> r == Decimal(n)
    ensures n < 0 ==> r == ['-'] + Decimal(-n)
  {
    if n < 0 then ['-'] + Decimal(-n) else Decimal(n)
  }

  /** One digit below ten, two digits from ten to ninety-nine. */
  lemma {:induction false} DecimalLength(n: nat)
    ensures n < 10 <==> |Decimal(n)| == 1
    ensures 10 <= n < 100 <==> |Decimal(n)| == 2
  {
    if n >= 10 {
      DecimalLength(n / 10);
    }
  }
}
