/**
 * The cleaning every `set_*` method starts with (asset.py lines 66-74,
 * 107-116 and 152-159): fill missing values with 0, promote the "Unnamed: 0"
 * label column to the index, drop the `reportedCurrency` row and coerce every
 * column to numbers.
 */
module Normaliser {
  import opened Outcomes
  import opened Cells
  import opened Tables

  /** A cell as the data source delivers it: blank (NaN), text or a number. */
  datatype RawCell = Blank | Text(s: string) | Number(v: real)

  /**
   * A statement as the data source delivers it. When `labelColumn` holds, its
   * first column is headed "Unnamed: 0" and `labels` are that column's
   * entries; otherwise `labels` is the frame's index. `periods` are the other
   * column headers, in order, and `cells[i][j]` is row i's entry for period j.
   */
  datatype RawStatement = RawStatement(
    labelColumn: bool,
    labels: seq<string>,
    periods: seq<int>,
    cells: seq<seq<RawCell>>)

  /** A rectangular frame with unique row labels. */
  ghost predicate WellFormed(raw: RawStatement) {
    && |raw.cells| == |raw.labels|
    && (forall i :: 0 <= i < |raw.cells| ==> |raw.cells[i]| == |raw.periods|)
    && Distinct(raw.labels)
  }

  /** The metadata row that is dropped before coercion. */
  const ReportedCurrency: string := "reportedCurrency"

  /** `fillna(0)` on one cell: only a blank changes. */
  function FillBlank(c: RawCell): (r: RawCell)
    ensures !r.Blank?
    ensures !c.Blank? ==> r == c
  {
    if c.Blank? then Number(0.0) else c
  }

  /** Whether every character is a decimal digit. */
  predicate AllDigits(s: string) {
    forall k :: 0 <= k < |s| ==> '0' <= s[k] <= '9'
  }

  /** The number the decimal digits `s` spell, read left to right. */
  function DigitsValue(s: string): nat
    requires AllDigits(s)
  {
    if s == [] then 0 else 10 * DigitsValue(s[..|s| - 1]) + (s[|s| - 1] as int - '0' as int)
  }

  function Power10(n: nat): (r: nat)
    ensures r >= 1
  {
    if n == 0 then 1 else 10 * Power10(n - 1)
  }

  /** The position of the first decimal point, or the length when there is none. */
  function PointAt(s: string): (i: nat)
    ensures i <= |s|
    ensures i < |s| ==> s[i] == '.'
    ensures forall k :: 0 <= k < i ==> s[k] != '.'
  {
    if s == [] then 0 else if s[0] == '.' then 0 else 1 + PointAt(s[1..])
  }

  /** A character an unsigned decimal may hold: a digit or the point. */
  predicate DecimalChar(c: char) {
    '0' <= c <= '9' || c == '.'
  }

  /**
   * An unsigned decimal: digits, then optionally a point and more digits,
   * with at least one digit in all.
   */
  function ReadUnsigned(s: string): (r: Option<real>)
    ensures r.Some? ==> r.value >= 0.0
    ensures r.Some? ==> s != [] && forall k :: 0 <= k < |s| ==> DecimalChar(s[k])
  {
    var i := PointAt(s);
    var whole := s[..i];
    var fraction := if i < |s| then s[i + 1..] else [];
    if AllDigits(whole) && AllDigits(fraction) && |whole| + |fraction| > 0 then
      Some(DigitsValue(whole) as real + DigitsValue(fraction) as real / Power10(|fraction|) as real)
    else None
  }

  /**
   * How `pd.to_numeric` reads a text cell: a signed decimal becomes its value,
   * any other text (the data source's "None" among them) becomes NaN.
   */
  function ReadNumber(s: string): (r: Cell)
    ensures !r.Inf?
    ensures r.Num? ==> s != [] && (DecimalChar(s[0]) || s[0] == '-' || s[0] == '+')
    ensures r.Num? ==> forall k :: 0 < k < |s| ==> DecimalChar(s[k])
    ensures r.Num? && s[0] == '-' ==> r.v <= 0.0
    ensures r.Num? && s[0] != '-' ==> r.v >= 0.0
  {
    var negative := |s| > 0 && s[0] == '-';
    var signed := |s| > 0 && (s[0] == '-' || s[0] == '+');
    match ReadUnsigned(if signed then s[1..] else s)
    case None => Missing
    case Some(v) => Num(if negative then -v else v)
  }

  /** The decimal digits of `n`, most significant first. */
  function Decimal(n: nat): (s: string)
    ensures AllDigits(s) && s != []
  {
    var d := ('0' as int + n % 10) as char;
    if n < 10 then [d] else Decimal(n / 10) + [d]
  }

  /** Reading the digits of `n` gives `n` back. */
  lemma {:induction false} DecimalValue(n: nat)
    ensures DigitsValue(Decimal(n)) == n
  {
    var s := Decimal(n);
    if n >= 10 {
      assert s[..|s| - 1] == Decimal(n / 10);
      DecimalValue(n / 10);
    }
  }

  /** A plain run of digits reads as the number it spells. */
  lemma DigitsRead(s: string)
    requires AllDigits(s) && s != []
    ensures ReadUnsigned(s) == Some(DigitsValue(s) as real)
  {
    PointAbsent(s);
    assert s[..|s|] == s;
  }

  /** A whole number written in decimal, with a minus sign when negative, reads back as itself. */
  lemma DecimalRoundTrip(x: int)
    ensures ReadNumber(if x < 0 then "-" + Decimal(-x) else Decimal(x)) == Num(x as real)
  {
    var n: nat := if x < 0 then -x else x;
    var digits := Decimal(n);
    DecimalValue(n);
    DigitsRead(digits);
    if x < 0 {
      assert ("-" + digits)[1..] == digits;
    } else {
      assert digits[0] != '-' && digits[0] != '+';
    }
  }

  /** A string of digits has no decimal point. */
  lemma {:induction false} PointAbsent(s: string)
    requires AllDigits(s)
    ensures PointAt(s) == |s|
  {
    if s != [] {
      PointAbsent(s[1..]);
    }
  }

  /** The data source's placeholder for an absent figure is not a number. */
  lemma NoneIsMissing()
    ensures ReadNumber("None").Missing?
  {
    assert !AllDigits("None"[..PointAt("None")]) by {
      assert PointAt("None") == 4;
    }
  }

  /**
   * `pd.to_numeric(errors="coerce")` on one cell: numbers stay, text is read
   * as a decimal (NaN when it is not one), and a blank is NaN.
   */
  function ToNumeric(c: RawCell): (r: Cell)
    ensures c.Number? ==> r == Num(c.v)
    ensures c.Text? ==> r == ReadNumber(c.s)
    ensures c.Blank? ==> r.Missing?
  {
    match c
    case Blank => Missing
    case Number(v) => Num(v)
    case Text(s) => ReadNumber(s)
  }

  /**
   * A cell after the whole cleaning: blanks were filled before coercion, so
   * a blank ends as 0 and a cell ends missing only when it was text that does
   * not read as a number.
   */
  function Coerce(c: RawCell): (r: Cell)
    ensures c.Blank? ==> r == Num(0.0)
    ensures c.Number? ==> r == Num(c.v)
    ensures r.Missing? <==> c.Text? && ReadNumber(c.s).Missing?
  {
    ToNumeric(FillBlank(c))
  }

  /** Coercing before filling would have turned blanks into NaN, not 0. */
  lemma FillBeforeCoerce()
    ensures Coerce(Blank) == Num(0.0)
    ensures ToNumeric(Blank).Missing?
  {
  }

  /** The labels without `x`, in their order. */
  function Without(s: seq<string>, x: string): (r: seq<string>)
    ensures forall y :: y in r <==> y in s && y != x
    ensures Distinct(s) ==> Distinct(r)
  {
    if s == [] then []
    else if s[0] == x then Without(s[1..], x)
    else
      var rest := Without(s[1..], x);
      assert Distinct(s) ==> s[0] !in s[1..];
      [s[0]] + rest
  }

  /** The position of a label or a period in its header. */
  function IndexOf<T(==)>(s: seq<T>, x: T): (i: nat)
    requires x in s
    ensures i < |s| && s[i] == x
    ensures Distinct(s) ==> forall k :: 0 <= k < |s| && s[k] == x ==> k == i
  {
    if s[0] == x then 0 else 1 + IndexOf(s[1..], x)
  }

  /** Row i of the raw frame after cleaning, keyed by period. */
  function CleanRow(raw: RawStatement, i: nat): (r: Row)
    requires WellFormed(raw) && i < |raw.labels| && Distinct(raw.periods)
    ensures Covers(raw.periods, r)
    ensures forall j :: 0 <= j < |raw.periods| ==>
      raw.periods[j] in r && r[raw.periods[j]] == Coerce(raw.cells[i][j])
  {
    map p | p in raw.periods :: Coerce(raw.cells[i][IndexOf(raw.periods, p)])
  }

  /** Every row but the currency row, cleaned and keyed by its label. */
  function CleanRows(raw: RawStatement): (rows: map<string, Row>)
    requires WellFormed(raw) && Distinct(raw.periods)
    ensures forall l :: l in rows <==> l in raw.labels && l != ReportedCurrency
    ensures forall i :: 0 <= i < |raw.labels| && raw.labels[i] != ReportedCurrency ==>
      raw.labels[i] in rows && rows[raw.labels[i]] == CleanRow(raw, i)
  {
    map l | l in raw.labels && l != ReportedCurrency :: CleanRow(raw, IndexOf(raw.labels, l))
  }

  /** The statement once the currency row is dropped and every cell cleaned. */
  function Cleaned(raw: RawStatement): (t: Table)
    requires WellFormed(raw) && Distinct(raw.periods)
  {
    Table(Without(raw.labels, ReportedCurrency), raw.periods, CleanRows(raw))
  }

  /** The cleaned statement is a well-formed table holding each raw cell coerced. */
  lemma CleanedValid(raw: RawStatement)
    requires WellFormed(raw) && Distinct(raw.periods)
    ensures Valid(Cleaned(raw))
    ensures ReportedCurrency !in Cleaned(raw).rows
  {
    var t := Cleaned(raw);
    forall l | l in t.rows ensures Covers(t.periods, t.rows[l]) {
      assert t.rows[l] == CleanRow(raw, IndexOf(raw.labels, l));
    }
  }

  /**
   * The cleaned statement, or the exception cleaning raises: IndexError for a
   * frame without columns (`columns[0]`), KeyError when the currency row is
   * absent (`drop`), and TypeError when a period heads two columns
   * (`pd.to_numeric` is handed a DataFrame), in that order.
   */
  function Normalise(raw: RawStatement): (r: Result<Table, Error>)
    requires WellFormed(raw)
    ensures !raw.labelColumn && raw.periods == [] ==> r == Failure(NoColumns)
    ensures (raw.labelColumn || raw.periods != []) && ReportedCurrency !in raw.labels ==>
      r == Failure(MissingRow(ReportedCurrency))
    ensures (raw.labelColumn || raw.periods != []) && ReportedCurrency in raw.labels && !Distinct(raw.periods) ==>
      r == Failure(DuplicateColumn)
    ensures r.Success? <==>
      (raw.labelColumn || raw.periods != []) && ReportedCurrency in raw.labels && Distinct(raw.periods)
    ensures r.Success? ==>
      && Valid(r.value)
      && r.value.periods == raw.periods
      && r.value.index == Without(raw.labels, ReportedCurrency)
      && ReportedCurrency !in r.value.rows
    ensures r.Success? ==> forall i, j ::
      0 <= i < |raw.labels| && 0 <= j < |raw.periods| && raw.labels[i] != ReportedCurrency ==>
        raw.labels[i] in r.value.rows && raw.periods[j] in r.value.rows[raw.labels[i]]
        && r.value.rows[raw.labels[i]][raw.periods[j]] == Coerce(raw.cells[i][j])
  {
    if !raw.labelColumn && raw.periods == [] then Failure(NoColumns)
    else if ReportedCurrency !in raw.labels then Failure(MissingRow(ReportedCurrency))
    else if !Distinct(raw.periods) then Failure(DuplicateColumn)
    else
      CleanedValid(raw);
      Success(Cleaned(raw))
  }
}
