/**
 * Statement tables as the source holds them in pandas DataFrames: an ordered
 * index of row labels, an ordered list of period columns and one cell per
 * (row, period).
 */
module Tables {
  import opened Outcomes
  import opened Cells

  /** One row of a table: its cell for each period (an ordinal date). */
  type Row = map<int, Cell>

  datatype Table = Table(index: seq<string>, periods: seq<int>, rows: map<string, Row>)

  predicate Distinct<T(==)>(s: seq<T>) {
    forall i, j :: 0 <= i < j < |s| ==> s[i] != s[j]
  }

  /** The row has a cell for exactly the given periods. */
  ghost predicate Covers(periods: seq<int>, r: Row) {
    forall p :: p in r <==> p in periods
  }

  /** A well-formed DataFrame: unique labels and columns, one full row per label. */
  ghost predicate Valid(t: Table) {
    && Distinct(t.index)
    && Distinct(t.periods)
    && (forall l :: l in t.rows <==> l in t.index)
    && (forall l :: l in t.rows ==> Covers(t.periods, t.rows[l]))
  }

  /** `pd.DataFrame()` */
  const Empty: Table := Table([], [], map[])

  /** A period read after pandas aligned a row on it: an absent period reads as NaN. */
  function At(r: Row, p: int): (c: Cell)
    ensures p in r ==> c == r[p]
    ensures p !in r ==> c.Missing?
  {
    if p in r then r[p] else Missing
  }

  /**
   * A dict or Series realigned on the columns, as `df.loc[name] = d` does:
   * every column gets the entry for its period, NaN where the dict has none.
   */
  function Reindexed(periods: seq<int>, d: map<int, Cell>): (r: Row)
    ensures Covers(periods, r)
    ensures forall p :: p in periods ==> r[p] == At(d, p)
  {
    map p | p in periods :: At(d, p)
  }

  /** Element-wise `op` of two rows aligned on the given periods. */
  function Combine(periods: seq<int>, a: Row, b: Row, op: (Cell, Cell) -> Cell): (r: Row)
    ensures Covers(periods, r)
    ensures forall p :: p in periods ==> r[p] == op(At(a, p), At(b, p))
  {
    map p | p in periods :: op(At(a, p), At(b, p))
  }

  /** A combined row's cell, where both rows have one. */
  lemma CombineAt(periods: seq<int>, a: Row, b: Row, op: (Cell, Cell) -> Cell, p: int)
    requires p in periods && p in a && p in b
    ensures p in Combine(periods, a, b, op) && Combine(periods, a, b, op)[p] == op(a[p], b[p])
  {
  }

  /** `df.loc[name]`, which raises KeyError for an absent row. */
  function GetRow(t: Table, name: string): (r: Result<Row, Error>)
    ensures r.Success? <==> name in t.rows
    ensures r.Success? ==> r.value == t.rows[name]
    ensures r.Failure? ==> r.error == MissingRow(name)
  {
    if name in t.rows then Success(t.rows[name]) else Failure(MissingRow(name))
  }

  /** How many of `names`, taken in order, the table has before the first it lacks. */
  function FirstAbsent(t: Table, names: seq<string>): (i: nat)
    ensures i <= |names|
    ensures forall k :: 0 <= k < i ==> names[k] in t.rows
    ensures i < |names| ==> names[i] !in t.rows
  {
    if names == [] || names[0] !in t.rows then 0 else 1 + FirstAbsent(t, names[1..])
  }

  /**
   * `df.loc[n]` for each name in turn: the rows, or the KeyError of the first
   * name the table lacks.
   */
  function GetRows(t: Table, names: seq<string>): (r: Result<seq<Row>, Error>)
    ensures r.Success? <==> forall n :: n in names ==> n in t.rows
    ensures r.Failure? ==> FirstAbsent(t, names) < |names| && r.error == MissingRow(names[FirstAbsent(t, names)])
    ensures r.Success? ==> |r.value| == |names| && forall k :: 0 <= k < |names| ==> r.value[k] == t.rows[names[k]]
  {
    if names == [] then Success([])
    else
      var row :- GetRow(t, names[0]);
      var rest :- GetRows(t, names[1..]);
      Success([row] + rest)
  }

  /**
   * `df.loc[name] = row`: an existing row is replaced where it stands, a new
   * label becomes the last row. The table stays well formed.
   */
  function SetRow(t: Table, name: string, row: Row): (r: Table)
    requires Valid(t) && Covers(t.periods, row)
    ensures Valid(r)
    ensures r.periods == t.periods
    ensures r.rows == t.rows[name := row]
    ensures name in t.rows ==> r.index == t.index
    ensures name !in t.rows ==> r.index == t.index + [name]
  {
    if name in t.rows then t.(rows := t.rows[name := row])
    else Table(t.index + [name], t.periods, t.rows[name := row])
  }

  /** Three `df.loc[name] = row` assignments in a row, to distinct names. */
  function SetRows(t: Table, n1: string, r1: Row, n2: string, r2: Row, n3: string, r3: Row): (r: Table)
    requires Valid(t) && Covers(t.periods, r1) && Covers(t.periods, r2) && Covers(t.periods, r3)
    requires n1 != n2 && n1 != n3 && n2 != n3
    ensures Valid(r) && r.periods == t.periods && t.index <= r.index
    ensures r.rows == t.rows[n1 := r1][n2 := r2][n3 := r3]
  {
    SetRow(SetRow(SetRow(t, n1, r1), n2, r2), n3, r3)
  }

  /** `row.div(s)` */
  function DividedRow(row: Row, s: real): (r: Row)
    ensures r.Keys == row.Keys
    ensures forall p :: p in row ==> r[p] == Div(row[p], Num(s))
  {
    map p | p in row :: Div(row[p], Num(s))
  }

  /** The table with every row divided by `s`. */
  function Scaled(t: Table, s: real): (r: Table)
  {
    Table(t.index, t.periods, map l | l in t.rows :: DividedRow(t.rows[l], s))
  }

  /** Scaling keeps the labels, the columns and the shape. */
  lemma ScaledValid(t: Table, s: real)
    requires Valid(t)
    ensures Valid(Scaled(t, s))
    ensures Scaled(t, s).index == t.index && Scaled(t, s).periods == t.periods
    ensures Scaled(t, s).rows.Keys == t.rows.Keys
  {
  }

  /** Multiplying every scaled cell back by a non-zero divisor gives the table's cells again. */
  lemma ScaledRoundTrip(t: Table, s: real, l: string, p: int)
    requires s != 0.0
    requires l in t.rows && p in t.rows[l]
    ensures l in Scaled(t, s).rows && p in Scaled(t, s).rows[l]
    ensures Mul(Scaled(t, s).rows[l][p], Num(s)) == t.rows[l][p]
  {
    DivMulRoundTrip(t.rows[l][p], s);
  }

  /**
   * `for i in df.index: df.loc[i] = df.loc[i].div(s)`: each row in turn is
   * replaced by itself divided by `s`.
   */
  method DivideEachRow(t: Table, s: real) returns (r: Table)
    requires Valid(t)
    ensures Valid(r) && r.periods == t.periods
    ensures r == Scaled(t, s)
  {
    r := t;
    var k := 0;
    while k < |t.index|
      invariant 0 <= k <= |t.index|
      invariant r.index == t.index && r.periods == t.periods
      invariant r.rows.Keys == t.rows.Keys
      invariant forall l :: l in t.rows ==>
        r.rows[l] == if l in t.index[..k] then DividedRow(t.rows[l], s) else t.rows[l]
    {
      var i := t.index[k];
      assert i !in t.index[..k];
      assert t.index[..k + 1] == t.index[..k] + [i];
      r := r.(rows := r.rows[i := DividedRow(r.rows[i], s)]);
      k := k + 1;
    }
    assert t.index[..k] == t.index;
    ScaledValid(t, s);
  }
}
