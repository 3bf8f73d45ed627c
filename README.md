# Asset: enriched statements and metric tables, in Dafny

This project models the `Asset` class in `Asset/asset.py`. An `Asset` takes three financial statements: an income
statement, a balance sheet and a cash flow. It also takes a daily price history.
From these it builds:

- cleaned statements, with every figure divided by the unit the statement is
  given in (`get_scaler`);
- market-cap and stock-price rows, from prices aligned on each statement's
  periods (`get_matching_stock_prices`);
- three derived balance-sheet rows;
- four metric tables: per-share figures, margins, the operating-expense
  breakdown and yields.

The model works on exact values. A figure is a `Cell`: a real number, a signed
infinity, or `Missing` (NaN). A statement is a `Table`: its row labels in order,
its periods in order (dates as integers), and each row as a map from period to
cell. Each exception the modelled code raises becomes an explicit
`Raised(error)` status: the KeyError of an absent row, the IndexError of a
frame without columns, the TypeError of an unknown unit or of a period heading
two columns, and the ValueError of assigning a row to a table without period
columns. Exceptions of the data manager, which is left out, are not modelled. The fields of `Asset` are updated in place by the methods of the
`Assets.Asset` class. Each method is proved against a pure step function on the
seven tables (`Assets.Books`), and the properties are lemmas about those
functions.

Modules, in dependency order:

- `Outcomes` and `Cells` (`cells.dfy`): results and errors; cell arithmetic
  with pandas' NaN and infinity rules.
- `Tables` (`tables.dfy`): row lookup, row assignment, alignment of a row on
  the periods, element-wise combination, and division of every row by the
  scaler.
- `Scaler` (`scaler.dfy`): the four unit-token lists and `get_scaler`.
- `Normaliser` (`normalise.dfy`): the cleaning each `set_*` method starts with.
- `Prices` (`prices.dfy`): the price windows and the aligner's six dicts.
- `Statements` and `Enrichment` (`statements.dfy`, `enrichment.dfy`): the rows
  each setter adds, and the order of the steps.
- `Metrics` (`metrics.dfy`): the four metric setters.
- `Assets` (`asset.dfy`): the class, its step functions and `set_all_statements`.

Seven facts about the code that the model keeps:

- The first period gets no market-cap entry from the aligner (lines 327-331).
  Assigning the dict as a row therefore leaves NaN there, not 0.
- `set_balance_sheet` divides the income statement's rows, not its own
  (lines 141-142). The balance sheet's figures stay undivided.
- In the income statement and the cash flow, the market-cap rows are added
  before the division and are divided with everything else (lines 80-87 and
  163-169). Only the stock rows are appended after it.
- There are nine per-share columns, not eight: common-stock dividends are a
  column of their own (lines 225-228).
- A per-share quotient over a zero share count is an infinity, not 0, when the
  figure is non-zero (lines 202-205). `fillna(0)` replaces only NaN.
- A statement whose only column is the label column cleans to a table without
  periods. Its first row assignment then raises ValueError: at line 80 for the
  income statement, at line 163 for the cash flow (both before an unknown unit
  could raise TypeError), and at line 124 for the balance sheet, after its four
  row reads.
- A metric table takes its index from the first non-empty column assigned to
  its empty frame. On a balance sheet with rows but no periods, the per-share
  table and the yields therefore run over the cash flow's periods (lines
  221-224 and 300-302), with the balance-sheet columns NaN.

## Model

| member | source | states |
|---|---|---|
| Cells.Sub | Asset/asset.py:124-129 | numbers subtract; a NaN operand gives NaN; an infinite result needs an infinite operand |
| Cells.Mul | Asset/asset.py:124-129 | numbers multiply; a NaN operand gives NaN; an infinite result has the sign rule of its operands |
| Cells.Div | Asset/asset.py:130-132 | a number over a non-zero number is the quotient; over zero it is NaN exactly when the dividend is 0, otherwise infinite; NaN propagates |
| Cells.FillNa | Asset/asset.py:130-132 | the result is never NaN; only a NaN cell is replaced, by the fill value |
| Cells.DivMulRoundTrip | Asset/asset.py:86-87 | dividing any cell by a non-zero scaler and multiplying back restores it |
| Cells.MulDivRoundTrip | Asset/asset.py:86-87 | multiplying any cell by a non-zero scaler and dividing back restores it |
| Tables.GetRows | Asset/asset.py:118-121 | reading several rows in turn succeeds exactly when all exist, returns them in order, and otherwise raises KeyError for the first absent one |
| Tables.SetRow | Asset/asset.py:124-126 | `.loc[label] = row` keeps the table well formed, replaces an existing row in place, and appends a new label at the end of the index |
| Tables.SetRows | Asset/asset.py:124-132 | three row assignments in turn keep the table well formed and set exactly those three rows |
| Tables.ScaledValid | Asset/asset.py:86-87 | dividing every row keeps the table well formed, with the same labels and periods |
| Tables.ScaledRoundTrip | Asset/asset.py:86-87 | multiplying any divided cell back by a non-zero scaler gives the cell it was |
| Tables.DivideEachRow | Asset/asset.py:86-87 | the loop over the index leaves every row divided by the scaler and the table well formed |
| Scaler.GroupsDisjoint | Asset/asset.py:26-63 | no token is in two of the four lists |
| Scaler.ThousandShaped | Asset/asset.py:26-38 | every thousands token starts with T/t, is a 4- or 5-character digit spelling, or is the number 1000 |
| Scaler.MillionShaped | Asset/asset.py:39-51 | every millions token starts with M/m, is a 7- or 9-character digit spelling, or is the number 1000000 |
| Scaler.BillionShaped | Asset/asset.py:52-62 | every billions token starts with B/b, is a 10- or 13-character digit spelling, or is the number 1000000000 |
| Scaler.GetScaler | Asset/asset.py:381-389 | the divisor is 1000, 1000000, 1000000000 or 1 exactly when the token is in the thousand, million, billion or no-scaling list; it is None exactly when the token is in none |
| Scaler.DefaultUnits | Asset/asset.py:9 | the constructor's default unit "thousands" and its abbreviation "th" both give 1000 |
| Scaler.UnlistedLetter | Asset/asset.py:26-63 | "k" is in no list, so it gives None |
| Scaler.UnlistedNumber | Asset/asset.py:26-63 | a trillion is in no list, so it gives None |
| Normaliser.FillBlank | Asset/asset.py:66 | `fillna(0)` leaves no blank and changes only blanks |
| Normaliser.ReadNumber | Asset/asset.py:72-74 | coercing text never yields an infinity; text reads as a number only when it is non-empty, starts with a digit, a point or a sign, and holds only digits and points after that; a leading minus gives a number at most 0, anything else a number at least 0 |
| Normaliser.DigitsRead | Asset/asset.py:72-74 | a string of digits reads as the number it spells |
| Normaliser.DecimalRoundTrip | Asset/asset.py:72-74 | the decimal spelling of any integer, signed, reads back as that integer |
| Normaliser.NoneIsMissing | Asset/asset.py:72-74 | the text "None" coerces to NaN, not 0 |
| Normaliser.Coerce | Asset/asset.py:66-74 | after the whole cleaning, a blank is 0, a number stays, and a cell is NaN exactly when it was unreadable text |
| Normaliser.FillBeforeCoerce | Asset/asset.py:66-74 | filling comes first: a blank ends as 0, whereas coercing it unfilled would give NaN |
| Normaliser.Without | Asset/asset.py:70 | dropping a label keeps exactly the other labels, and keeps them distinct |
| Normaliser.CleanRows | Asset/asset.py:70-74 | the cleaned rows are exactly the raw labels other than `reportedCurrency`, each its cleaned raw row |
| Normaliser.CleanedValid | Asset/asset.py:66-74 | the cleaned statement is a well-formed table without the currency row |
| Normaliser.Normalise | Asset/asset.py:66-74 | a frame without columns raises IndexError; a missing `reportedCurrency` row raises KeyError; a period heading two columns raises TypeError; otherwise the result is a well-formed table with the same periods, the labels minus `reportedCurrency`, and each raw cell coerced |
| Prices.WindowMembers | Asset/asset.py:333 | the window holds exactly the price rows dated from the previous label to the current one, both included |
| Prices.WindowEmpty | Asset/asset.py:333 | with no row dated in the range, the window is empty |
| Prices.WindowIsSlice | Asset/asset.py:333 | on a date-sorted history the window is the one contiguous slice a label slice selects |
| Prices.MaxHigh | Asset/asset.py:334 | the result is at least every high of the window and is one of them |
| Prices.MinLow | Asset/asset.py:335 | the result is at most every low of the window and is one of them |
| Prices.SliceHigh | Asset/asset.py:334 | the high of a window is NaN exactly when the window is empty, otherwise its maximum high |
| Prices.SliceLow | Asset/asset.py:335 | the low of a window is NaN exactly when the window is empty, otherwise its minimum low |
| Prices.SliceAverage | Asset/asset.py:336 | the mean close is NaN exactly when the window is empty, otherwise the sum of closes over their count |
| Prices.AverageWithinCloses | Asset/asset.py:336 | the mean close lies between any lower and upper bound of the window's closes |
| Prices.CapOf | Asset/asset.py:342-360 | a market cap is shares times the price statistic, NaN for a NaN statistic, and 0 when the share lookup raised KeyError |
| Prices.RecordedUnseen | Asset/asset.py:319-324 | a period that is no label has no entry in any of the six dicts |
| Prices.RecordedAt | Asset/asset.py:326-367 | with distinct labels, each label keeps the entry stored for it |
| Prices.AlignedPricesAt | Asset/asset.py:326-365 | the first label gets price 0 and no market-cap entry; each later label gets its window's high, low and mean since the label before and the market caps they imply |
| Prices.AlignedPricesElsewhere | Asset/asset.py:369-376 | the returned dicts hold nothing for a period that is not a label |
| Prices.EmptyWindow | Asset/asset.py:333-364 | a period with no price rows gets NaN statistics, NaN market caps when shares are known, and 0 otherwise |
| Statements.NetOf | Asset/asset.py:124-129 | `(a - b) * 100` for numbers, NaN when either is NaN |
| Statements.QuotientOrZero | Asset/asset.py:130-132 | the current ratio is never NaN: the quotient for a non-zero denominator, 0 when an input is NaN, infinite for a non-zero value over 0 |
| Statements.AddDerivedRows | Asset/asset.py:124-132 | the three derived rows are set to the combined input rows, everything else is kept, and the table stays well formed |
| Statements.WithDerivedRows | Asset/asset.py:118-132 | the derived rows are added exactly when the four input rows exist; otherwise KeyError for the first absent one, in reading order (the ValueError of a table without periods, raised after these reads, is stated by `Enrichment.EnrichedBalanceSheet`) |
| Statements.WithMarketCaps | Asset/asset.py:136-138 | the three market-cap rows are the aligned dicts realigned on the periods; every other row is kept |
| Statements.WithStockPrices | Asset/asset.py:144-146 | the three stock rows are the aligned price dicts; every other row is kept |
| Statements.AddedDerivedCells | Asset/asset.py:124-132 | each derived cell is computed from the input cells of the same period |
| Statements.DerivedKeeps | Asset/asset.py:124-132 | adding the derived rows keeps every other row |
| Statements.MarketCapCells | Asset/asset.py:136-138 | each market-cap cell is the dict's entry for its period, or NaN |
| Statements.MarketCapKeeps | Asset/asset.py:136-138 | adding the market-cap rows keeps every other row |
| Statements.StockPriceCells | Asset/asset.py:144-146 | each stock cell is the price dict's entry for its period, or NaN |
| Statements.StockPriceKeeps | Asset/asset.py:144-146 | adding the stock rows keeps every other row |
| Enrichment.DerivedCells | Asset/asset.py:118-132 | with the four input rows present, net total assets, net current assets and the current ratio of each period come from that period's inputs |
| Enrichment.EnrichedStatement | Asset/asset.py:78-91 | the enriched table is well formed with the same periods; a table without periods raises ValueError and is kept as cleaned; with periods it raises exactly when the unit is unknown, and then keeps the market-cap rows |
| Enrichment.StatementShape | Asset/asset.py:78-91 | with periods, enrichment adds the market caps, then divides, then adds the stock rows; without periods the table is left as cleaned |
| Enrichment.EnrichedScaling | Asset/asset.py:86-87 | multiplying any cleaned cell back by the scaler gives the figure it was before enrichment |
| Enrichment.EnrichedMarketCaps | Asset/asset.py:80-87 | the market caps are divided too: multiplying them back gives the aligner's products |
| Enrichment.EnrichedCapAt | Asset/asset.py:80-87 | for a later period, the high market cap times the scaler is the share count times the window's highest price |
| Enrichment.EnrichedStockPrices | Asset/asset.py:88-91 | the stock rows hold the prices undivided |
| Enrichment.Enrich | Asset/asset.py:78-91 | the step-by-step enrichment of the field ends with the enriched statement |
| Enrichment.EnrichedBalanceSheet | Asset/asset.py:117-146 | the result is well formed; it raises exactly when an input row is absent, the table has no periods (ValueError, after the four reads) or the unit is unknown, and then leaves the income statement as it was |
| Enrichment.BalanceSheetShape | Asset/asset.py:117-146 | a successful `set_balance_sheet` on a table with periods adds the derived rows, the market caps from its own share counts and the stock rows, and divides the income statement |
| Enrichment.BalanceSheetUnscaled | Asset/asset.py:139-146 | every balance-sheet cell that is not overwritten keeps its undivided value |
| Enrichment.BalanceSheetScalesIncome | Asset/asset.py:141-142 | with periods every income-statement cell is divided, and multiplying it back gives what it held; without periods the step raises ValueError and the income statement is untouched |
| Enrichment.FirstPeriodMarketCaps | Asset/asset.py:327-331 | the first period's market-cap cells are NaN, whether or not the scaling happens |
| Enrichment.FirstPeriodStockPrices | Asset/asset.py:327-331 | the first period's stock cells are 0 |
| Enrichment.BalanceSheetFirstPeriod | Asset/asset.py:134-138 | the balance sheet's first-period average market cap is NaN |
| Enrichment.DerivedRowsExample | Asset/asset.py:124-132 | assets 500, liabilities 300, current 200 and 100 give 20000, 10000 and a ratio of 2 |
| Metrics.FirstUnresolved | Asset/asset.py:283-296 | the rows read in turn before the first absent one all exist |
| Metrics.Fetch | Asset/asset.py:283-296 | the rows are read in order: success exactly when all exist, otherwise KeyError for the first absent one |
| Metrics.MetricTable | Asset/asset.py:243-245 | after the transpose the metric names are the rows, in assignment order, and the periods the columns |
| Metrics.PercentOf | Asset/asset.py:255 | `(a / b) * 100` with no fill: NaN for 0 over 0 or a NaN input |
| Metrics.PercentOfFilled | Asset/asset.py:272-277 | with a NaN denominator filled to 0, a non-zero figure gives an infinity and a zero one NaN |
| Metrics.PercentRoundTrip | Asset/asset.py:255 | a percentage divided by 100 and multiplied back by its non-zero denominator is the numerator |
| Metrics.Metric | Asset/asset.py:195-311 | a metric setter succeeds exactly when every row it reads exists and raises KeyError for the first absent one; its table has the metric columns as rows, over the first statement's periods, or, when that has none, over the second statement's if a metric reads from it (pandas takes the index from the first non-empty column assigned to the empty frame) |
| Metrics.MetricCell | Asset/asset.py:195-311 | at every period of the table, a metric cell is the operation on its numerator's and the denominator's cells where the column's series has that period, and NaN where the realignment adds it |
| Metrics.PerShare | Asset/asset.py:195-245 | nine per-share rows over the balance sheet's periods, or over the cash flow's when the balance sheet has none; or KeyError for the first row read that is absent |
| Metrics.PerShareCell | Asset/asset.py:201-241 | each per-share figure is its row over the share count, with NaN filled to 0 |
| Metrics.PerShareNeedsShares | Asset/asset.py:197-199 | without the share-count row the setter raises KeyError for it first |
| Metrics.PerShareNeverMissing | Asset/asset.py:201-242 | a per-share figure is NaN exactly when it is one of the four read from a balance sheet without periods; every other figure is a number or an infinity |
| Metrics.PerShareWithoutPeriods | Asset/asset.py:201-242 | on a balance sheet with rows but no periods, the per-share table runs over the cash flow's periods, with the four balance-sheet figures NaN and the five cash-flow figures 0 |
| Metrics.PerShareRoundTrip | Asset/asset.py:202-205 | a per-share figure times a non-zero share count is the row's figure |
| Metrics.PerShareZeroShares | Asset/asset.py:202-205 | over zero shares a non-zero figure is infinite and a zero one is 0 |
| Metrics.PerShareExample | Asset/asset.py:201-205 | cash of 500 over 100 shares is 5 per share |
| Metrics.Margins | Asset/asset.py:247-261 | three margins over the income statement's periods, or KeyError for the first row read that is absent |
| Metrics.MarginCell | Asset/asset.py:255-259 | each margin is its row over revenue, times 100 |
| Metrics.MarginBounds | Asset/asset.py:255-259 | a figure between 0 and a positive revenue gives a margin between 0 and 100 |
| Metrics.MarginsMissingRevenue | Asset/asset.py:255-259 | a NaN revenue gives NaN margins: nothing is filled |
| Metrics.MarginExample | Asset/asset.py:255 | a gross profit of 400 on revenue of 1000 is a gross margin of 40 |
| Metrics.OperatingExpenseBreakdown | Asset/asset.py:263-279 | two shares over the income statement's periods, or KeyError for the first row read that is absent |
| Metrics.OperatingExpenseCell | Asset/asset.py:269-277 | each share is its row over the operating expenses with only NaN in the denominator filled, times 100 |
| Metrics.OperatingExpenseSharesSum | Asset/asset.py:272-277 | when research and selling expenses make up the operating expenses, their shares add up to 100 |
| Metrics.OperatingExpensesMissing | Asset/asset.py:269-274 | a NaN operating-expense figure is filled with 0, so a non-zero research share is infinite and a zero one NaN |
| Metrics.Yields | Asset/asset.py:281-311 | seven yields over the balance sheet's periods, or over the cash flow's when the balance sheet has none; or KeyError for the first row read that is absent |
| Metrics.YieldCell | Asset/asset.py:296-309 | each yield is its row over the average market cap, times 100 |
| Metrics.YieldsWithoutPeriods | Asset/asset.py:296-311 | on a balance sheet with rows but no periods, the yields run over the cash flow's periods and every one is NaN |
| Metrics.YieldRoundTrip | Asset/asset.py:297 | a yield divided by 100 and multiplied by a non-zero market cap is the figure it came from |
| Metrics.YieldsMissingMarketCap | Asset/asset.py:296-309 | a NaN average market cap gives NaN yields: nothing is filled |
| Assets.BalanceSheetStep | Asset/asset.py:106-146 | `set_balance_sheet` changes only the balance sheet and the income statement; a cleaning error changes nothing; any error leaves the income statement as it was; after cleaning it returns exactly when the table has periods, the unit is known and the four input rows exist |
| Assets.MarketDataStep | Asset/asset.py:134-146 | the second half of `set_balance_sheet` changes only the balance sheet and the income statement and keeps all seven tables well formed; it returns exactly when the balance sheet has periods and the unit is known; without periods it raises ValueError and changes nothing; an error leaves the income statement as it was |
| Assets.IncomeStatementStep | Asset/asset.py:65-101 | `set_income_statement` changes only the income statement; a cleaning error changes nothing; after cleaning it returns exactly when the table has periods, the unit is known and the balance sheet has the share-count row |
| Assets.CashFlowStep | Asset/asset.py:151-173 | `set_cash_flow` changes only the cash flow; a cleaning error changes nothing; after cleaning it returns exactly when the table has periods and the unit is known |
| Assets.PerShareStep | Asset/asset.py:195-245 | on a fresh per-share table, `set_per_share_data` changes only that table, to the per-share metric of the balance sheet and cash flow; it raises exactly when that metric does, and then nothing changes |
| Assets.MarginsStep | Asset/asset.py:247-261 | on a fresh margins table, `set_margins` changes only the margins, to the margins of the income statement, or raises and changes nothing |
| Assets.OperatingExpenseStep | Asset/asset.py:263-279 | on a fresh breakdown table, `set_operating_expense_breakdown` changes only that table, to the breakdown of the income statement, or raises and changes nothing |
| Assets.YieldsStep | Asset/asset.py:281-311 | on a fresh yields table, `set_yields` changes only the yields, to the yields of the balance sheet and cash flow, or raises and changes nothing |
| Assets.AllStatementsStep | Asset/asset.py:178-193 | on an asset whose metric tables are still empty, `set_all_statements` keeps all seven tables well formed |
| Assets.AllStatementsDone | Asset/asset.py:184-193 | on an asset whose metric tables are still empty (a fresh one), when `set_all_statements` returns, the balance sheet, income statement and cash flow were set in that order, each from what the previous call left, and every metric table is its metric of the final statements |
| Assets.FirstPeriodWithoutYields | Asset/asset.py:296-309 | after `set_all_statements`, every yield of the first period is NaN, since its average market cap is NaN |
| Assets.IncomeCapsUseBalanceShares | Asset/asset.py:342-344 | the income statement's market caps use the share counts of the balance sheet held when it is set |
| Assets.StatementStepsDone | Asset/asset.py:78-101 | with a known unit and periods, the income statement and the cash flow end as their enriched tables, and only the income statement can then raise, for a missing share-count row; without periods both raise ValueError with the cleaned table stored |
| Assets.StatementStepsUnknownUnit | Asset/asset.py:79-85 | with an unknown unit and periods both setters raise TypeError, leaving the table with its market-cap rows; without periods the ValueError of the first row assignment comes first, with the cleaned table stored |
| Assets.BalanceSheetStepBranches | Asset/asset.py:117-146 | a missing input row raises KeyError with the cleaned balance sheet in place; with all four rows but no periods it raises ValueError with the cleaned sheet in place; otherwise the step is the market-data step on the sheet with its derived rows |
| Assets.Asset.constructor | Asset/asset.py:9-24 | a fresh asset holds the given unit and price history and seven empty tables |
| Assets.Asset.GetMatchingStockPrices | Asset/asset.py:314-376 | the loop over the labels, carrying the previous label, returns the aligner's six dicts |
| Assets.Asset.SetBalanceSheet | Asset/asset.py:106-146 | the fields end as `BalanceSheetStep` of the old fields, and the status is its status, including the ValueError of a table without periods |
| Assets.Asset.AddBalanceSheetMarketData | Asset/asset.py:134-146 | the fields end as `MarketDataStep` of the old fields |
| Assets.Asset.SetIncomeStatement | Asset/asset.py:65-101 | the fields end as `IncomeStatementStep` of the old fields, and the status is its status, including the ValueError of a table without periods |
| Assets.Asset.SetCashFlow | Asset/asset.py:151-173 | the fields end as `CashFlowStep` of the old fields, and the status is its status, including the ValueError of a table without periods |
| Assets.Asset.SetPerShareData | Asset/asset.py:195-245 | on a fresh per-share table, the fields end as `PerShareStep` of the old fields |
| Assets.Asset.SetMargins | Asset/asset.py:247-261 | on a fresh margins table, the fields end as `MarginsStep` of the old fields |
| Assets.Asset.SetOperatingExpenseBreakdown | Asset/asset.py:263-279 | on a fresh breakdown table, the fields end as `OperatingExpenseStep` of the old fields |
| Assets.Asset.SetYields | Asset/asset.py:281-311 | on a fresh yields table, the fields end as `YieldsStep` of the old fields |
| Assets.Asset.SetAllStatements | Asset/asset.py:178-193 | on an asset whose metric tables are still empty, the fields end as `AllStatementsStep` of the old fields |

## Left out

- The data manager is not part of this model: the price history is a constructor parameter. This covers `DataManager` construction (lines 16-18), `get_data` (line 316) and `get_stock_split` (line 95). The ticker (line 10) is used only by them.
- The split adjustment (lines 93-99) is an empty stub whose KeyError is swallowed. It is modelled as doing nothing.
- The `print` at line 96 and the display format at line 3 are left out. The print at line 101 is modelled only for the KeyError its row lookup raises.
- Floating point: figures are exact reals. Rounding, overflow and signed zero are not modelled. A zero denominator counts as +0 for the sign of an infinity.
- Normaliser.ReadNumber: reads only plain decimals with an optional sign and fraction. Exponents, surrounding spaces, thousands separators and the spellings of infinity and NaN that pandas also accepts are not modelled.
- Normaliser.Normalise: requires distinct row labels and a rectangular frame. Duplicate labels, and labels that are blank or not strings, are not modelled.
- Assets.Asset.SetBalanceSheet: when cleaning raises, the model keeps the old balance sheet. The source has already stored the partly cleaned frame (lines 107-111).
- Assets.Asset.SetIncomeStatement: when cleaning raises, the model keeps the old income statement. The source has already stored the partly cleaned frame (lines 66-70).
- Assets.Asset.SetCashFlow: when cleaning raises, the model keeps the old cash flow. The source has already stored the partly cleaned frame (lines 152-156).
- Assets.BalanceSheetStep: "a cleaning error changes nothing" is a statement about the model only; see `Assets.Asset.SetBalanceSheet`.
- Assets.IncomeStatementStep: "a cleaning error changes nothing" is a statement about the model only; see `Assets.Asset.SetIncomeStatement`.
- Assets.CashFlowStep: "a cleaning error changes nothing" is a statement about the model only; see `Assets.Asset.SetCashFlow`.
- Assets.Asset.SetPerShareData: when a row lookup raises, the model keeps the old table. The source keeps the columns it assigned before the error, untransposed, because it reads each row just before assigning its column (lines 201-241).
- Assets.PerShareStep: "raises and nothing changes" is a statement about the model only; see `Assets.Asset.SetPerShareData`.
- Assets.Asset.SetMargins: no partial state is lost. All four rows are read before any column is assigned (lines 249-254), so a KeyError leaves the table as it was, as the model says.
- Assets.MarginsStep: as for `Assets.Asset.SetMargins`, a KeyError changes nothing in the source too.
- Assets.Asset.SetOperatingExpenseBreakdown: no partial state is lost. All three rows are read before any column is assigned (lines 265-271), so a KeyError leaves the table as it was.
- Assets.OperatingExpenseStep: as for `Assets.Asset.SetOperatingExpenseBreakdown`, a KeyError changes nothing in the source too.
- Assets.Asset.SetYields: no partial state is lost. All eight rows are read before any column is assigned (lines 283-296), so a KeyError leaves the table as it was.
- Assets.YieldsStep: as for `Assets.Asset.SetYields`, a KeyError changes nothing in the source too.
- Statements.WithDerivedRows: does not raise the ValueError of a table without periods. `Enrichment.EnrichedBalanceSheet` raises it, after the same four reads, as line 124 does.
- A second call of a metric setter is not modelled. The source then assigns period-keyed columns into the table it already transposed (lines 202, 243-245, 255, 261, 272, 279, 297 and 311). They realign to NaN, and the second `.T` leaves the first call's figures in the old orientation. A table whose rows mix periods and metric names does not fit the model's tables. The members below therefore require their metric tables to be still empty, as on a fresh `Asset`.
- Assets.PerShareStep: requires an empty per-share table, so a second `set_per_share_data` is not modelled.
- Assets.MarginsStep: requires an empty margins table, so a second `set_margins` is not modelled.
- Assets.OperatingExpenseStep: requires an empty breakdown table, so a second `set_operating_expense_breakdown` is not modelled.
- Assets.YieldsStep: requires an empty yields table, so a second `set_yields` is not modelled.
- Assets.Asset.SetPerShareData: requires an empty per-share table, as `Assets.PerShareStep` does.
- Assets.Asset.SetMargins: requires an empty margins table, as `Assets.MarginsStep` does.
- Assets.Asset.SetOperatingExpenseBreakdown: requires an empty breakdown table, as `Assets.OperatingExpenseStep` does.
- Assets.Asset.SetYields: requires an empty yields table, as `Assets.YieldsStep` does.
- Assets.AllStatementsStep: requires all four metric tables to be empty, so a second `set_all_statements` on the same asset is not modelled.
- Assets.AllStatementsDone: states its result only for an asset whose metric tables are empty. After an earlier `set_all_statements` on the same asset, the source's metric tables are not the metrics of the new statements.
- Assets.Asset.SetAllStatements: requires all four metric tables to be empty, as `Assets.AllStatementsStep` does. A fresh `Asset` meets this.
- Prices.PriceRow: the high, low and close of a price row are plain numbers, so a NaN price is not modelled. pandas' `max()`, `min()` and `mean()` (lines 334-336) skip NaN entries and give NaN only for a window with no numeric entry. Prices.SliceHigh, Prices.SliceLow and Prices.SliceAverage are therefore NaN exactly when the window is empty only for this NaN-free history.
- Prices.SliceHigh: does not skip NaN highs; see `Prices.PriceRow`.
- Prices.SliceLow: does not skip NaN lows; see `Prices.PriceRow`.
- Prices.SliceAverage: does not skip NaN closes or count only numeric ones; see `Prices.PriceRow`.
- The price history is taken as date-sorted. Only `WindowIsSlice` relies on that. An unsorted index, where pandas label slicing behaves differently, is not modelled.
- The bare `.div(scaler)` calls (lines 85, 139 and 166) discard their results and change nothing. The model leaves them out, except that an unknown unit raises TypeError there (`UnknownScaleUnit`).
- The getters `get_income_statement`, `get_balance_sheet` and `get_cash_flow` return a field and are not modelled.
- In `set_income_statement` and `set_cash_flow` the market-cap rows, the division and the stock rows are built on a local table (`Enrichment.Enrich`), which is then stored in the field. The source mutates the field row by row. No other code runs between these steps, so nothing can observe the difference.
