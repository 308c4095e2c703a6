# Dividend schedule notifier: business-day advancer and schedule extraction

The repository is one Python script, `main.py`, that runs once at start-up:
it finds the dates one and four Korean business days after today, asks the
Seibro open API for the dividend/coupon payment schedule starting on each of
those dates, renders both result sets as HTML tables and mails them, then
serves a health endpoint. This Dafny project models the two pieces of logic
in it.

- **`BusinessDay`** (`business_day.dfy`): `get_nth_business_day`. Dates are
  proleptic Gregorian day ordinals (Python's `date.toordinal`), so a step of
  one calendar day is `+ 1` and `weekday()` is `(d + 6) % 7`. The Korean
  holiday calendar is a given `set<int>` of ordinals and the KRX ticker
  listing a given function from an ordinal to a list of tickers; a day counts
  when it is not a Saturday or Sunday, not a holiday, and its ticker list is
  non-empty. The advancer is a `while` loop with `continue`, as in the
  source, proved against the counting function `Counted(start, end)` (the
  number of counting days in `(start, end]`).
- **`Schedule`** (`schedule.dfy`): `getCostPaySchedule`. The `params` string
  is built by a method with the source's conditional `+=`, and the parser
  `ParseParams` is a proved left inverse of it, for a date without commas.
  The response is the sequence of its `<result>` nodes; each node maps a
  child element name to that child's attributes. The seven-field records are filled by a `for` loop that appends
  one record per node. A child that is present without a `value` attribute
  makes Python raise `KeyError`; the model returns `Err(MissingValue(child))`
  for it, naming the first such child in field order.
- **`Text`** (`text.dfy`): Python's `str` of an integer and `",".join`, with
  their inverses (`ParseInt`, `Split`) and round-trip lemmas.
- **`Wrappers`** (`wrappers.dfy`): `Option` and `Result`.

The loop in `get_nth_business_day` has no bound. The model's advancer
requires that at least `n` counting days follow the start date
(`Reachable`). The loop then terminates, measured by the distance to a
horizon at which the count reaches `n`. No fuel parameter is used.

Two edge cases of the code, which the model keeps:
- For `n <= 0` the loop condition `count < n` fails at once, so the body
  never runs and the start date is returned unchanged (main.py:30, 33, 43).
- A child element that is present but has no `value` attribute makes the
  subscript `["value"]` raise `KeyError`; only an absent child gets the
  sentinel (main.py:67-73).

The sentinel `"없음"` cannot be told apart from a child whose `value` is
literally `"없음"`; the model keeps that ambiguity, as the source does.

## Model

| member | source | states |
|---|---|---|
| BusinessDay.Weekday | main.py:37 | the weekday of an ordinal lies in 0..6 (Monday 0, Sunday 6) |
| BusinessDay.IsWeekend | main.py:37 | `weekday() >= 5` holds exactly on Saturdays and Sundays, which are the ordinals 6 or 0 modulo 7 |
| BusinessDay.IsBusinessDay | main.py:37-41 | a day is counted iff its ordinal is a Monday to Friday (1..5 modulo 7), it is not a holiday, and its ticker list is non-empty |
| BusinessDay.Counted | main.py:33-41 | the number of counted days in (start, end] is at most the number of calendar days in it, and 0 for an empty interval |
| BusinessDay.CountedMonotone | main.py:33-41 | scanning further never lowers the count |
| BusinessDay.CountedGrowsAtBusinessDay | main.py:40-41 | a counted day after `a` makes the count at it strictly larger than at `a` |
| BusinessDay.NthBusinessDay | main.py:29-43 | for n <= 0 the start date is returned; for n >= 1 the result is after the start, not a weekend day, not a holiday, has a non-empty ticker list, exactly n counted days lie in (start, result], and the count is below n on every earlier day |
| BusinessDay.NthBusinessDayUnique | main.py:33-43 | at most one day is the n-th counted day, so the advancer's contract determines its result |
| BusinessDay.NthBusinessDayMonotone | main.py:29-43 | for 1 <= n1 < n2 the n1-th counted day is strictly before the n2-th |
| BusinessDay.StretchCount | main.py:33-41 | over j consecutive counted days right after the start the count is j |
| BusinessDay.FullStretch | main.py:33-43 | inside a run of k counted days after the start, the n-th counted day is start + n for 1 <= n <= k |
| BusinessDay.LongWeekend | main.py:37-41 | from a Friday before a Monday holiday, the first counted day is the Tuesday when it trades |
| Text.NatToDecimal | main.py:53 | `str` of a natural is a non-empty digit string without a leading zero |
| Text.DecimalRoundTrip | main.py:53 | reading back the digits of `str(n)` gives n |
| Text.IntToDecimal | main.py:53 | `str` of an integer is non-empty and contains no comma |
| Text.IntRoundTrip | main.py:53 | reading back `str(i)` gives i, for negative i too |
| Text.Join | main.py:53-55 | a join is at least as long as its first piece, so joining non-empty renderings never gives the empty string the test at line 55 looks for |
| Text.SplitJoin | main.py:53 | splitting the join of separator-free pieces returns exactly those pieces, in order |
| Schedule.RenderCodes | main.py:53 | `map(str, codes)` has one string per code, each `str` of that code |
| Schedule.ParseRenderCodes | main.py:53 | the rendered codes read back to the codes |
| Schedule.PiecesRoundTrip | main.py:53-56 | for any comma-free keys, date and code pieces, the params layout splits at its commas and reads back to the date and the codes |
| Schedule.ParamsRoundTrip | main.py:53-56 | a params string with codes parses back to its date and code list |
| Schedule.BuildParams | main.py:53-56 | params starts with `TH1_PAY_TERM_BEGIN_DT:<date>`; it is exactly that prefix iff the code list is empty; otherwise the prefix is followed by `,PAY_COST_TPCD:` and the codes as `str` renders them, comma-joined in list order; for a comma-free date it parses back to the date and the codes in list order |
| Schedule.Field | main.py:67-73 | one field reads successfully iff its child is absent or has a `value`; an absent child gives the sentinel, a present one its `value`, and a present child without `value` the error naming it |
| Schedule.ExtractFields | main.py:66-74 | reading succeeds iff every child is absent or has a `value`; each field is its child's `value`, or the sentinel when the child is absent; otherwise the error names the first unreadable child |
| Schedule.ExtractRecord | main.py:66-74 | the seven record fields follow the per-field rule independently, in field order; the error case is the first present child without `value` |
| Schedule.MissingSecurityName | main.py:69 | a node lacking `kor_secn_nm` yields the sentinel in that field alone, other present fields keep their values |
| Schedule.MapInOrder | main.py:62-75 | a walk over the nodes succeeds iff every step succeeds, its results are the steps' results position by position, and otherwise it fails with the first failing step's error |
| Schedule.ExtractAll | main.py:62-75 | one record per node, in document order (none for no nodes), each the node's own record; otherwise the error of the first failing node |
| Schedule.ExtractSchedule | main.py:62-75 | the loop's output equals `ExtractAll` of the nodes, so `count` has no effect on it |
| Schedule.GetCostPaySchedule | main.py:50-77 | the query's params are the date's key and value, followed, only for a non-empty code list, by the codes' key and their `str` renderings comma-joined; they read back to the date and the codes; and the result is the extraction of the response's nodes to that params |

## Left out

- BusinessDay.NthBusinessDay: requires that at least n counted days follow the start date. Without them the source loops forever, and a total model cannot return.
- BusinessDay.NthBusinessDay: returns a day ordinal, not the `YYYYMMDD` string `strftime` gives. Civil-date conversion (`pd.Timestamp`, `strftime`) is not modelled.
- The ticker oracle is a total function of the day. The model does not show that the source queries it only for weekdays that are not holidays. It also does not show how many network calls are made, or that a failed call raises.
- The holiday set is given. How `holidays.Korea` builds it for the current and next year is not modelled; that is library data.
- Schedule.ExtractRecord: the error names the unreadable child. Python's `KeyError` names only the key `value`.
- Schedule.BuildParams: Python's `None` for the code list is modelled as the empty list. Both take the same branch.
- The HTTP request, the API key and the URL of the query are not modelled (main.py:58-59). Neither is BeautifulSoup's parsing into `<result>` nodes (main.py:60, 63). A response is given as its node sequence, and a node as the attribute maps of its first descendant of each name.
- `pd.DataFrame` and `to_html` are not modelled (main.py:77, 110-116): library rendering. Records are returned as a sequence.
- Reading `today` from the clock and reading environment variables are not modelled. Nor is the order of the script's top-level statements (main.py:17-26, 46-47, 80-81).
- SMTP sending is not modelled (main.py:87-106, 108-119): network I/O. Failures there are only logged.
- The Flask health route is not modelled (main.py:122-131): web-framework plumbing.
