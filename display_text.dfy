/** Text formatting shared by the subscription card and the payment list: the capitalised
    status badge, the payment-method label and the two-digit countdown cells. */
module DisplayText {
  import opened Js

  /** `status.charAt(0).toUpperCase() + status.slice(1)`. */
  function StatusBadge(status: string): (r: string)
    ensures |r| == |status|
    ensures status != [] ==> r[0] == UpperChar(status[0]) && r[1..] == status[1..]
  {
    Capitalize(status)
  }

  /** `method.replace("_", " ").toUpperCase()`: a string pattern replaces only its first
      occurrence, so later underscores stay. */
  function MethodLabel(m: string): string {
    ToUpper(ReplaceFirst(m, '_', ' '))
  }

  /** The label has the method's length; the first underscore becomes a space and every
      other character is upper-cased in place, so no lower-case letter is left and any later
      underscore is kept. */
  lemma MethodLabelShape(m: string)
    ensures |MethodLabel(m)| == |m|
    ensures '_' in m ==> MethodLabel(m)[FirstIndex(m, '_')] == ' '
    ensures forall i :: 0 <= i < |m| && !('_' in m && i == FirstIndex(m, '_')) ==> MethodLabel(m)[i] == UpperChar(m[i])
    ensures forall i :: 0 <= i < |m| ==> !IsLower(MethodLabel(m)[i])
  {
    var replaced := ReplaceFirst(m, '_', ' ');
    ReplaceFirstPointwise(m, '_', ' ');
    ToUpperCharwise(replaced);
  }

  /** A label split at its first underscore: the part before it and the part after it are
      upper-cased on their own, with a space between; underscores after the first stay (so
      `mobile_money_ug` reads `MOBILE MONEY_UG`). */
  lemma MethodLabelSplit(before: string, after: string)
    requires '_' !in before
    ensures MethodLabel(before + ['_'] + after) == ToUpper(before) + [' '] + ToUpper(after)
  {
    var m := before + ['_'] + after;
    assert m[|before|] == '_' && m[..|before|] == before;
    assert FirstIndex(m, '_') == |before|;
    assert m[|before| + 1..] == after;
    ReplaceFirstOnlyFirst(m, '_', ' ');
    assert ReplaceFirst(m, '_', ' ') == before + [' '] + after;
    ToUpperAppend(before + [' '], after);
    ToUpperAppend(before, [' ']);
    assert ToUpper([' ']) == [' '] by {
      assert [' '][1..] == [];
    }
  }

  /** `value.toString().padStart(2, "0")`. */
  function CountdownCell(value: int): string {
    PadStart(IntToString(value), 2, '0')
  }

  /** `c` is two decimal digits that read as `n`. */
  predicate TwoDigitsOf(c: string, n: int) {
    |c| == 2 && '0' <= c[0] <= '9' && '0' <= c[1] <= '9' && DigitsValue(c) == n
  }

  /** A value from 0 to 99 shows as exactly two digits that read back as the value; from 10 on
      the cell is the plain decimal, and nothing is ever cut off. */
  lemma CountdownCellShape(value: int)
    ensures |CountdownCell(value)| >= 2
    ensures 0 <= value < 100 ==> TwoDigitsOf(CountdownCell(value), value)
    ensures value >= 10 ==> CountdownCell(value) == Decimal(value)
  {
    if value >= 10 {
      DecimalLength(value);
      DecimalRoundTrip(value);
    } else if value >= 0 {
      SingleDigitCell(value);
    } else {
      assert |Decimal(-value)| >= 1;
    }
  }

  /** `c` is decimal digits that read as `n`. */
  predicate ReadsAs(c: string, n: int) {
    (forall i :: 0 <= i < |c| ==> '0' <= c[i] <= '9') && DigitsValue(c) == n
  }

  /** Every non-negative value shows as at least two digits that read back as the value,
      exactly two below 100. */
  lemma CellReadsBack(value: nat)
    ensures |CountdownCell(value)| >= 2 && ReadsAs(CountdownCell(value), value)
    ensures value < 100 ==> TwoDigitsOf(CountdownCell(value), value)
  {
    CountdownCellShape(value);
    if value >= 10 {
      DecimalRoundTrip(value);
    }
  }

  /** A single digit is padded with one zero in front. */
  lemma SingleDigitCell(value: nat)
    requires value < 10
    ensures CountdownCell(value) == ['0', DigitChar(value)]
    ensures DigitsValue(CountdownCell(value)) == value
  {
    assert Decimal(value) == [DigitChar(value)];
    assert CountdownCell(value) == ['0'] + [DigitChar(value)];
    LeadingZero([DigitChar(value)]);
    assert [DigitChar(value)][..0] == [];
  }
}
