# Advertising reward quote calculator — verified model

The program is a small Tkinter form. It quotes the cost of an advertising job
that runs for a fixed seven days. The form has four entry fields: daily
traffic count, daily storage ("저장하기") count, and one unit cost for each.
Pressing the button runs `on_calculate`, which does the following:

- It strips the four fields.
- It checks them in a fixed order. Both counts empty gives "missing count";
  either unit cost empty gives "missing unit cost"; a field `int()` rejects
  gives "not a number"; a negative value gives "negative". An empty count is
  read as 0 when the other count is present.
- It shows either the first failure's message or the quote.

`calculate_cost` computes the traffic cost, the storage cost, the daily total,
the seven-day total, and that total with 10% VAT. It clears the read-only
result area and inserts the lines whose guards hold. Every amount carries
thousands separators. The VAT-inclusive line is rounded to whole won and
tagged `bold_blue`. A company name and bank account footer close the quote.

Modules:

- `Numerals` covers the Python built-ins the form relies on. These are
  `str.strip` with Python's whitespace set, `int()` on an optional sign and
  decimal digits, and `format(n, ',')` (PEP 378 grouping) with its
  round-trip to the plain decimal numeral.
- `Quote` holds the arithmetic of `calculate_cost`. The VAT-inclusive total
  is an exact rational. Round-half-even gives the displayed whole-won value.
- `Validation` holds the field checks, in the order the handler runs them,
  and the exact message of each rejection.
- `ResultView` models the result area as a class `ResultText`, with its
  inserted segments and its normal/disabled state. `CalculateCost` and
  `OnCalculate` are methods on it. Each is proved to leave exactly the
  segments that the specification functions `CostLines` and
  `Render(Calculate(...))` describe, with the widget disabled again. The
  lines of a quote form a datatype `Line`; `Selected` gives the guarded
  selection and `Show` gives each line's exact text and tag.
- `Scenarios` works through whole button presses on concrete form contents.

## Model

| member | source | states |
|---|---|---|
| Numerals.Strip | reward_calculator.py:64-67 | The stripped field is the contiguous part of the text from its first to its last non-whitespace character. It keeps every non-whitespace character, and neither end is whitespace. |
| Numerals.StripPadded | reward_calculator.py:64-67 | Whitespace placed around a text that does not begin or end with whitespace is exactly what stripping removes. |
| Numerals.IsSpace | reward_calculator.py:64-67 | The whitespace `strip` removes is Python's `isspace` set. No whitespace character is a digit or a sign, so whitespace can never be part of a numeral. |
| Numerals.StripUnpadded | reward_calculator.py:64-67 | Text that neither begins nor ends with whitespace is left unchanged by stripping. |
| Numerals.ParseInt | reward_calculator.py:86-89 | `int()` succeeds only on non-empty text. A negative result only comes from text starting with `-`. |
| Numerals.ParseDigits | reward_calculator.py:86-89 | The decimal numeral of any n parses to n, with a `+` sign to n, and with a `-` sign to -n. |
| Numerals.ParseNumeral | reward_calculator.py:86-89 | Any run of digits parses to its value, leading zeros included (for example "050"). With a leading `+` it parses to the same value, and with a leading `-` to the negated value. |
| Numerals.ParseShape | reward_calculator.py:86-89 | The converse of `ParseNumeral`: `int()` succeeds only on one or more digits, optionally preceded by a single `+` or `-`. The result is then the value of the digits, with the sign applied. |
| Numerals.ParseExamples | reward_calculator.py:86-89 | "050" parses to 50, "+007" to 7 and "-00" to 0, while a bare "+" or "-" fails. |
| Numerals.ParseRejectsStray | reward_calculator.py:86-89 | A character that is neither a digit nor a leading sign makes `int()` fail. |
| Numerals.Digits | reward_calculator.py:48-54 | The plain decimal numeral behind each `{:,}` amount, before grouping, is a non-empty run of digits with no leading zero. |
| Numerals.DigitsRoundTrip | reward_calculator.py:48-54 | Reading back the decimal numeral of n gives n. |
| Numerals.DigitsInjective | reward_calculator.py:48-54 | Different numbers have different numerals. |
| Numerals.Group3 | reward_calculator.py:48-54 | A group after a separator is exactly three digits, and they denote the remainder modulo 1000. |
| Numerals.Grouped | reward_calculator.py:48-54 | The `{:,}` rendering of an amount is never empty, and it begins and ends with a digit. Its digits and comma positions are given by `GroupedDigits` and `GroupedCommas`. |
| Numerals.GroupedDigits | reward_calculator.py:48-54 | Removing the commas from the `{:,}` rendering gives the plain numeral. A numeral of d digits gets (d − 1) / 3 commas: one in front of each group of three digits counted from the right, and none at the very front. |
| Numerals.GroupedCommas | reward_calculator.py:48-54 | Counted from the right end of the `{:,}` rendering, exactly every fourth character is a comma, so commas sit between groups of three digits. |
| Numerals.DigitsSplit | reward_calculator.py:48-54 | The numeral of q·1000+r is the numeral of q followed by the three-digit group of r. |
| Numerals.UngroupAppend | reward_calculator.py:48-54 | Removing commas distributes over concatenation. |
| Quote.ComputeQuote | reward_calculator.py:32-40 | Each total relates to the inputs as follows: per-category cost = count × unit cost; daily total = their sum; weekly total = 7 × daily total; VAT total = weekly total × (100 + rate) / 100. The VAT total is never negative. |
| Quote.WeeklyTotalFormula | reward_calculator.py:34-39 | The weekly total equals 7 × (traffic × traffic unit cost + storage × storage unit cost). |
| Quote.DefaultVat | reward_calculator.py:32-40 | At the default rate of 10, the VAT-inclusive total is 11/10 of the weekly total. |
| Quote.VatNeverLowers | reward_calculator.py:39-40 | The VAT total is at least the weekly total. It is strictly larger exactly when the weekly total and the rate are both positive. |
| Quote.CategoriesAdd | reward_calculator.py:34-40 | The daily, weekly and VAT totals are the sums of those of the traffic-only and the storage-only quotes. |
| Quote.Monotone | reward_calculator.py:34-40 | Raising any count or unit cost never lowers any cost or total. |
| Quote.NoLoadCostsNothing | reward_calculator.py:34-40 | With zero traffic and zero storage, every total is zero whatever the unit costs. |
| Quote.RoundHalfEven | reward_calculator.py:53-54 | `.0f` rounding lands within 0.5 of the value, and an exact tie goes to the even neighbour. |
| Quote.RoundWhole | reward_calculator.py:53-54 | Rounding a whole number leaves it unchanged. |
| Quote.RoundAtLeast | reward_calculator.py:53-54 | Rounding never drops below a whole number the value is at least. |
| Quote.DisplayedVatTotal | reward_calculator.py:54 | The displayed VAT-inclusive total is a natural number within 0.5 of the exact total. |
| Quote.DisplayedVatAtLeastWeekly | reward_calculator.py:53-54 | The displayed VAT-inclusive total is never below the displayed total without VAT. |
| Quote.TrafficOnlyExample | reward_calculator.py:32-40 | 100 traffic at 50 won gives 5,000 a day, 35,000 for seven days, and 38,500 with VAT. |
| Validation.Message | reward_calculator.py:70-101 | Every rejection message starts with "❌ ". |
| Validation.MessagesDistinct | reward_calculator.py:70-101 | Different rejections show different messages. |
| Validation.CountValue | reward_calculator.py:86-87 | An empty count field reads as 0. A non-empty count that parses is negative only when it starts with `-`. |
| Validation.Check | reward_calculator.py:70-97 | Applied to the stripped fields, the checks report a missing count exactly when both counts are empty. An accepted form has a count and both unit costs. The full acceptance condition is `AcceptedExactly`, and the rejection order is given by the four precedence lemmas below. |
| Validation.Validate | reward_calculator.py:64-97 | The checks run on the stripped fields, so a count of whitespace alone is missing. Missing count is reported exactly when both stripped counts are empty. |
| Validation.NoCountFirst | reward_calculator.py:64-75 | When both stripped counts are empty, the outcome is "missing count", whatever the unit costs hold. |
| Validation.MissingUnitCostSecond | reward_calculator.py:77-83 | With some count present and a stripped unit cost empty, the outcome is "missing unit cost". Nothing is parsed first. |
| Validation.NotANumberBeatsNegative | reward_calculator.py:85-102 | When counts and unit costs are present and any field fails to parse, the outcome is "not a number", even if another field is negative. |
| Validation.NegativeRejected | reward_calculator.py:85-95 | When everything parses and any value is negative, the outcome is "negative". |
| Validation.AcceptedExactly | reward_calculator.py:64-97 | Fields are accepted with values v if and only if three things hold: some count is present, each stripped field parses to its value in v, and an empty count stands for 0. |
| Validation.AcceptedHasCount | reward_calculator.py:70-87 | An accepted form has a count, and an empty count is read as 0. |
| Validation.CheckNumerals | reward_calculator.py:85-97 | The numerals of any non-negative values pass every check with exactly those values. |
| Validation.TypedValuesAccepted | reward_calculator.py:64-97 | Any non-negative values, typed as numerals with any whitespace before and after each field (chosen independently per field and side), are accepted as exactly those values. |
| Validation.StripNumeral | reward_calculator.py:64-67 | Stripping any whitespace before and after a numeral gives the numeral back. |
| Validation.EmptyTrafficIsZero | reward_calculator.py:85-87 | An empty traffic count next to a given storage count is read as 0. |
| Validation.ValidateUnpadded | reward_calculator.py:64-67 | Fields without surrounding whitespace are checked exactly as typed. |
| Validation.MinusZeroAccepted | reward_calculator.py:85-95 | "-0" parses to 0, which is not negative, so it is accepted. |
| Validation.NegativeTrafficExample | reward_calculator.py:85-95 | A traffic count of "-5" is rejected as negative. |
| Validation.TextBeatsNegativeExample | reward_calculator.py:85-102 | "ten" in a count is rejected as not a number, even with a negative unit cost present. |
| Validation.BlankCountsExample | reward_calculator.py:64-75 | A whitespace-only traffic count next to an empty storage count is "missing count". |
| ResultView.Selected | reward_calculator.py:47-57 | Nothing is shown without load, and otherwise the bank account line comes last. Which lines appear is given by `LineSelection`, and their order by `LineOrder`. |
| ResultView.Show | reward_calculator.py:48-57 | Every line inserts non-empty text. The segment is tagged `bold_blue` if and only if it is the VAT-inclusive total. Which amount each line shows is pinned by `Scenarios.ShowBothDaily` and `Scenarios.ShowBothWeekly`. There, with every amount different, the traffic, storage, daily, weekly and VAT-inclusive lines each show their own amount. `TrafficOnlyLines` gives the texts without a storage line. |
| ResultView.CostLines | reward_calculator.py:46-57 | An accepted quote shows no segment if and only if both counts are zero. `ShownIffSelected` and `OnlyVatEmphasised` give its contents. |
| ResultView.Calculate | reward_calculator.py:61-102 | A press ends in an error if and only if validation rejects the fields, and every error message starts with "❌ ". |
| ResultView.Render | reward_calculator.py:71-74 | An error is shown as its message alone, in one plain segment, and a quote as its segments. |
| ResultView.ShowAll | reward_calculator.py:46-57 | One inserted segment per shown line. |
| ResultView.ShowAllAt | reward_calculator.py:46-57 | The i-th segment shown is the i-th selected line's text and tag. |
| ResultView.ShowInjective | reward_calculator.py:47-57 | Different lines of one quote never show the same segment. |
| ResultView.LineSelection | reward_calculator.py:47-57 | The traffic line appears if and only if traffic > 0, and the storage line if and only if storage > 0. The totals and footer appear if and only if either is positive. With no load, nothing appears. |
| ResultView.LineOrder | reward_calculator.py:47-57 | Shown lines follow the fixed insertion order strictly, so none appears twice. |
| ResultView.FooterLast | reward_calculator.py:55-57 | Every non-empty quote ends with the company name and then the bank account. |
| ResultView.ShownIffSelected | reward_calculator.py:46-57 | A line's segment is in the result area if and only if the line's guard holds. |
| ResultView.OnlyVatEmphasised | reward_calculator.py:53-57 | The only `bold_blue` segment is the VAT-inclusive line, and it is present if and only if some count is positive. |
| ResultView.NoLoadShowsNothing | reward_calculator.py:51-59 | An accepted form with zero traffic and zero storage leaves the result area empty, with no error. |
| ResultView.ErrorShownAlone | reward_calculator.py:70-102 | A rejected form shows exactly its one message and no cost line. |
| ResultView.OutcomeFollowsValidation | reward_calculator.py:96-97 | An accepted form shows the lines of the quote for exactly the accepted values at the default VAT rate. |
| ResultView.ResultText.constructor | reward_calculator.py:191-204 | The result area starts empty and disabled. |
| ResultView.ResultText.SetEditable | reward_calculator.py:43 | `config(state=...)` switches editability and changes no text. |
| ResultView.ResultText.Clear | reward_calculator.py:44 | `delete(1.0, END)` empties a normal widget. A disabled widget ignores it. |
| ResultView.ResultText.Insert | reward_calculator.py:48 | `insert(END, ...)` appends one segment to a normal widget. A disabled widget ignores it. |
| ResultView.ResultText.ShowError | reward_calculator.py:71-74 | Afterwards the area holds exactly the message and is disabled, whatever it held before. |
| ResultView.ResultText.InsertLine | reward_calculator.py:47-57 | Inserting one line extends the shown segments by that line's segment. |
| ResultView.ResultText.InsertSummary | reward_calculator.py:51-57 | Inserts the daily, weekly and VAT totals and the footer, in that order. |
| ResultView.ResultText.CalculateCost | reward_calculator.py:32-59 | Afterwards the area holds exactly the quote's selected lines, in order, and is disabled. |
| ResultView.ResultText.OnCalculate | reward_calculator.py:61-102 | Afterwards the area holds exactly the rendered outcome, either the first failed check's message or the quote, and is disabled. |
| Scenarios.GroupedExamples | reward_calculator.py:48-54 | 5000, 35000 and 38500 display as "5,000", "35,000" and "38,500". |
| Scenarios.TrafficOnlyAccepted | reward_calculator.py:64-97 | The fields "100", "", "50", "50" are accepted as traffic 100, storage 0, and unit costs of 50. |
| Scenarios.TrafficOnlyLines | reward_calculator.py:32-59 | The quote for 100 traffic at 50 won shows seven segments, with their exact texts and tags. |
| Scenarios.TrafficOnlyDisplay | reward_calculator.py:61-97 | Pressing the button on "100", "", "50", "50" shows those seven segments. Only the VAT line is bold blue, and there is no storage line. |
| Scenarios.ZeroLoadDisplay | reward_calculator.py:61-97 | "0", "0", "50", "50" is accepted and shows nothing at all. |
| Scenarios.NoCountDisplay | reward_calculator.py:64-75 | An empty traffic count with a blank storage count shows only the missing-count message, whatever the unit costs. |
| Scenarios.BothAccepted | reward_calculator.py:64-97 | The fields "100", "30", "50", "70" are accepted as traffic 100, storage 30, and unit costs 50 and 70. |
| Scenarios.BothQuote | reward_calculator.py:34-40 | Those values cost 5,000 for traffic and 2,100 for storage, 7,100 a day and 49,700 for seven days. The total with VAT is 54,670. |
| Scenarios.ShowBothDaily | reward_calculator.py:47-52 | For that quote, the traffic line shows the traffic cost 5,000 and the storage line the storage cost 2,100. The daily line shows the daily total 7,100. |
| Scenarios.ShowBothWeekly | reward_calculator.py:53-54 | For that quote, the line without VAT shows the weekly total 49,700. The VAT-inclusive line, in bold blue, shows 54,670. |
| Scenarios.BothLines | reward_calculator.py:32-59 | The quote for those values shows all eight segments, with their exact texts and tags. |
| Scenarios.BothDisplay | reward_calculator.py:61-97 | Pressing the button on "100", "30", "50", "70" shows those eight segments. |

## Left out

- The window, layout, styling and hover colours are not modelled (reward_calculator.py:1-30 and 109-217), and neither is the Tk event loop. The entry fields become the `Fields` value passed to `OnCalculate`.
- The UTF-8 reconfiguration of standard output on Windows (reward_calculator.py:6-8) is I/O.
- The catch-all `except Exception` branch (reward_calculator.py:103-107) is not modelled. Its message never appears in the model. The two cases that reach it, or another branch, in Python but are accepted here are listed on the `Quote.ComputeQuote` and `Numerals.ParseInt` lines.
- Numerals.ParseInt: accepts only an optional sign followed by ASCII digits. It does not model Python's `_` digit separators or non-ASCII Unicode digits, which `int()` also accepts. Such text is "not a number" in the model.
- Numerals.ParseInt: has no length limit. Python's default limit on integer string conversion makes `int()` raise `ValueError` for numerals longer than 4300 digits, so the form shows "❌ 숫자만 입력해주세요!". The model accepts such numerals as their values.
- Quote.ComputeQuote: the VAT-inclusive total is the exact rational weekly × (100 + rate) / 100, not the IEEE double `weekly_total * (1 + vat_rate/100)`. The double's representation error can change the rounded display when the exact total ends in .5. For example, a daily total of 25 gives a weekly total of 175. The double 175 × 1.1 is 192.50000000000003, so the program shows 193, while the model rounds the exact 192.5 half-to-even and shows 192. It can also change the rounding when amounts exceed 2^53, and the `.0f` conversion of the whole-won weekly total is exact only up to 2^53.
- Quote.ComputeQuote: amounts are unbounded. In Python, `weekly_total * (1 + vat_rate/100)` (reward_calculator.py:40) converts the integer weekly total to a float. That raises `OverflowError` once the total reaches about 2^1024; for example, a traffic count of 1 followed by 308 zeros at unit cost 1 gives a weekly total of 7·10^308. The catch-all at reward_calculator.py:103-107 then shows "❌ 예기치 않은 오류가 발생했습니다: …" and no quote. Just below that bound, weekly totals from about 1.63·10^308 to 2^1024 still convert, but the product overflows to `inf` without raising. The VAT line then shows "inf 원"; for example, a traffic count of 24 followed by 306 zeros at unit cost 1. The model shows a whole-won quote for every accepted input.
- Quote.ComputeQuote: `vat_rate` is a natural-number percentage. The form only ever passes the default of 10.
- ResultView.Show: the whole VAT-inclusive line, label included, carries the `bold_blue` tag, because the code tags the whole insert (reward_calculator.py:54).
- ResultView.ResultText: the text widget's own trailing newline is not modelled, and neither is the merging of consecutive inserts into one text. The model keeps one segment per `insert` call.
- The quote always covers the fixed 7 days of the code. A variable number of working days or a date range is not part of this model.
