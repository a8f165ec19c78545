/** Label texts written next to the grid: decimal row and column numbers
    (Python's `str` of a non-negative integer) and spreadsheet-style column
    letters (`get_column_letter`: A..Z, AA, AB, ...). */
module Labels {

  import opened Arith

  /** The character of decimal digit `d`. */
  function DigitChar(d: nat): char
    requires d < 10
  {
    ('0' as int + d) as char
  }

  /** `str(n)` for a non-negative integer: its decimal digits, no leading zero. */
  function DecimalString(n: nat): (s: string)
    ensures |s| >= 1
    ensures forall i :: 0 <= i < |s| ==> '0' <= s[i] <= '9'
    ensures |s| > 1 ==> s[0] != '0'
    decreases n
  {
    if n < 10 then [DigitChar(n)] else DecimalString(n / 10) + [DigitChar(n % 10)]
  }

  /** `int(s)` for a string of decimal digits; the inverse of DecimalString. */
  function DecimalValue(s: string): int
    decreases |s|
  {
    if s == [] then 0 else DecimalValue(s[..|s| - 1]) * 10 + (s[|s| - 1] as int - '0' as int)
  }

  /** Reading back the digits of `n` gives `n`. */
  lemma {:induction false} DecimalRoundTrip(n: nat)
    ensures DecimalValue(DecimalString(n)) == n
    decreases n
  {
    var s := DecimalString(n);
    if n < 10 {
      assert s[..|s| - 1] == [];
    } else {
      DecimalRoundTrip(n / 10);
      assert s[..|s| - 1] == DecimalString(n / 10);
    }
  }

  /** Distinct numbers are written as distinct strings. */
  lemma DecimalInjective(m: nat, n: nat)
    ensures DecimalString(m) == DecimalString(n) <==> m == n
  {
    if DecimalString(m) == DecimalString(n) {
      DecimalRoundTrip(m);
      DecimalRoundTrip(n);
    }
  }

  /** `string.ascii_uppercase[r]`. */
  function Letter(r: nat): char
    requires r < 26
  {
    ('A' as int + r) as char
  }

  /** The column name that `get_column_letter(n)` builds: bijective base 26,
      last letter `n % 26`, the rest the name of `n // 26 - 1`; a negative
      number gives the empty string. */
  function ColumnLetter(n: int): (s: string)
    ensures n >= 0 <==> |s| >= 1
    ensures forall i :: 0 <= i < |s| ==> 'A' <= s[i] <= 'Z'
    decreases if n < 0 then 0 else n + 1
  {
    if n < 0 then "" else ColumnLetter(n / 26 - 1) + [Letter(n % 26)]
  }

  /** The column number a non-empty name of capital letters stands for
      (A = 0, Z = 25, AA = 26); -1 for the empty name. */
  function ColumnIndex(s: string): int
    decreases |s|
  {
    if s == [] then -1
    else (ColumnIndex(s[..|s| - 1]) + 1) * 26 + (s[|s| - 1] as int - 'A' as int)
  }

  /** Reading back the column name of `n` gives `n`. */
  lemma {:induction false} ColumnRoundTrip(n: nat)
    ensures ColumnIndex(ColumnLetter(n)) == n
    decreases n
  {
    var s := ColumnLetter(n);
    var q := n / 26 - 1;
    assert s[..|s| - 1] == ColumnLetter(q);
    assert s[|s| - 1] as int - 'A' as int == n % 26;
    if q >= 0 {
      ColumnRoundTrip(q);
    } else {
      assert ColumnLetter(q) == "";
    }
    assert ColumnIndex(s) == (q + 1) * 26 + n % 26;
  }

  /** Every non-empty name of capital letters is the name of exactly one column. */
  lemma {:induction false} ColumnLetterOnto(s: string)
    requires |s| >= 1
    requires forall i :: 0 <= i < |s| ==> 'A' <= s[i] <= 'Z'
    ensures ColumnIndex(s) >= 0 && ColumnLetter(ColumnIndex(s)) == s
    decreases |s|
  {
    var p := s[..|s| - 1];
    var d := s[|s| - 1] as int - 'A' as int;
    assert s == p + [Letter(d)];
    var n := ColumnIndex(s);
    assert n == (ColumnIndex(p) + 1) * 26 + d;
    if p == [] {
      DivModOf(n, 26, 0, d);
    } else {
      ColumnLetterOnto(p);
      DivModOf(n, 26, ColumnIndex(p) + 1, d);
    }
    assert ColumnLetter(n) == ColumnLetter(n / 26 - 1) + [Letter(n % 26)];
  }

  /** Distinct columns get distinct names. */
  lemma ColumnLetterInjective(m: nat, n: nat)
    ensures ColumnLetter(m) == ColumnLetter(n) <==> m == n
  {
    if ColumnLetter(m) == ColumnLetter(n) {
      ColumnRoundTrip(m);
      ColumnRoundTrip(n);
    }
  }

  /** The first names of the sequence, as spreadsheets write them. */
  lemma ColumnLetterExamples()
    ensures ColumnLetter(0) == "A" && ColumnLetter(25) == "Z"
    ensures ColumnLetter(26) == "AA" && ColumnLetter(27) == "AB"
    ensures ColumnLetter(701) == "ZZ" && ColumnLetter(702) == "AAA"
  {
    assert ColumnLetter(0) == "A";
    assert ColumnLetter(25) == "Z";
    assert ColumnLetter(26) == ColumnLetter(0) + "A";
    assert ColumnLetter(27) == ColumnLetter(0) + "B";
    assert ColumnLetter(701) == ColumnLetter(25) + "Z";
    assert ColumnLetter(702) == ColumnLetter(26) + "A";
  }

  /** How the label of a column is written: grid_utils.py numbers columns
      from 1, main.py names them with letters. Rows are numbered in both. */
  datatype LabelStyle = Numbers | Letters

  /** The label of the column (or row) with zero-based index `k`. */
  function LabelText(style: LabelStyle, k: nat): string
  {
    match style
    case Numbers => DecimalString(k + 1)
    case Letters => ColumnLetter(k)
  }

  /** Labels are never empty, and distinct indices get distinct labels. */
  lemma LabelTextDistinct(style: LabelStyle, j: nat, k: nat)
    ensures |LabelText(style, k)| >= 1
    ensures LabelText(style, j) == LabelText(style, k) <==> j == k
  {
    match style
    case Numbers => DecimalInjective(j + 1, k + 1);
    case Letters => ColumnLetterInjective(j, k);
  }
}
