# House ledger summary — Dafny model

This project models the one piece of logic in the green-house hostel finance
dashboard: how its summary figures are worked out from the room contribution
records, the expense records and the selected month key. It covers:

- the month filter. It keeps the expenses whose `date_added` starts with the
  selected month key (`"2023-10"`).
- the four totals. Each is a `reduce` with accumulator 0: the month's and the
  lifetime contributions over all rooms, the month's expenses over the
  filtered list, and the lifetime expenses over all expenses.
- the two balances. They are contributions minus expenses, with no clamping.
- the expense feed. A toggle chooses between the full list and the filtered one.
- the room badge. It is `room.replace('Room ', '')`.

Modules:

- `Sequences` (`sequences.dfy`) has the order-preserving subsequence relation
  and `Reduce`, the left fold that JavaScript's `reduce` performs. It also has
  `Sum`, a separate right-recursive definition of the same total. The lemmas
  connect the two and cover additivity, order independence, non-negativity and
  monotonicity.
- `JsString` (`js_string.dfy`) has `startsWith`, `indexOf` and `replace` with a
  string pattern. Such a `replace` changes only the first occurrence.
- `Ledger` (`ledger.dfy`) has the `RoomContribution` and `Expense` records
  (types.ts), the filter, the totals, the balances, the summary record for one
  render, the feed, the toggle and the badge. It also proves the properties
  listed below.

Modelling choices:

- Amounts are whole naira, as `int`, not JavaScript floating-point numbers.
- The React state `selectedMonth` and `showAllExpenses` is passed in as
  function parameters.
- Each `useMemo` value is a plain function of its inputs. `Summarize` collects
  one render's figures. The month contribution total reads only the room
  records; its memo has no dependencies. So it does not change with the
  selected month, and `SummaryMonthIndependent` proves this.
- Strings are `seq<char>`, whose elements are Unicode scalar values.
- `String.prototype.replace` with a string pattern and a replacement that
  contains no `$` splices the replacement in at the first occurrence. An
  empty pattern counts as occurring at index 0.

## Model

| member | source | states |
|---|---|---|
| `Ledger.FilterByMonth` | App.tsx:21-23 | The result is no longer than the input. Every kept item's date starts with the month key. An expense is in the result exactly when it is in the input and its date starts with the key. Each matching expense keeps its multiplicity; every other expense has multiplicity 0 |
| `Ledger.FilterIsSubsequence` | App.tsx:21-23 | The filtered list is an order-preserving subsequence of the expense list |
| `Ledger.FilterAppend` | App.tsx:21-23 | Filtering a concatenation is the concatenation of the filtered parts |
| `Ledger.FilterKeepsAllInMonth` | App.tsx:21-23 | A list whose every date starts with the key filters to itself |
| `Ledger.FilterIdempotent` | App.tsx:21-23 | Filtering an already filtered list with the same month changes nothing |
| `Ledger.FilterEmptyMonthKeepsAll` | App.tsx:21-23 | With the empty key every expense is kept, because every string starts with "" |
| `Ledger.TotalContributionsMonth` | App.tsx:25-27 | The left fold of `month_total` from 0 equals the reference sum over all rooms |
| `Ledger.TotalContributionsAll` | App.tsx:35-37 | The left fold of `overall_total` from 0 equals the reference sum over all rooms |
| `Ledger.TotalExpenses` | App.tsx:39-41 | The left fold of `amount` from 0 equals the reference sum over the list; the monthly total at line 30 uses the same fold |
| `Ledger.Balance` | App.tsx:33 | The balance plus the expenses gives back the contributions. The balance is negative exactly when expenses exceed contributions, so there is no clamping |
| `Ledger.Summarize` | App.tsx:21-43 | One render's figures: the filtered list is the month filter; each total is the reference sum over its list; each balance plus its expenses equals its contributions |
| `Ledger.TotalsAppend` | App.tsx:25-41 | All four totals are additive over concatenation, including the monthly expense total over a filtered concatenation |
| `Ledger.TotalsOrderIndependent` | App.tsx:25-41 | Reordering the rooms or the expenses (equal multisets) leaves every total unchanged |
| `Ledger.MonthExpensesBounded` | App.tsx:29-41 | When all amounts are non-negative, 0 <= the month's expense total <= the lifetime expense total |
| `Ledger.MonthBalanceBounds` | App.tsx:29-33 | When all amounts are non-negative, the month's balance lies between (month's contributions − lifetime expenses) and the month's contributions |
| `Ledger.SummaryMonthIndependent` | App.tsx:25-43 | The two contribution totals, the lifetime expense total and the lifetime balance are the same for every selected month |
| `Ledger.SummaryOfNothing` | App.tsx:21-43 | No rooms and no expenses give an empty filtered list and all-zero figures |
| `Ledger.DisplayedFeed` | App.tsx:233 | The feed is always a subsequence of the expense list. It is the full list when `showAllExpenses` is set, and the month's filtered list otherwise |
| `Ledger.Toggle` | App.tsx:225 | The button always flips `showAllExpenses` |
| `Ledger.FeedToggle` | App.tsx:225-233 | Pressing the button twice restores the feed, and the compact feed is a subsequence of the expanded one |
| `Ledger.RoomBadge` | App.tsx:196 | A room name without "Room " is returned unchanged. Otherwise the badge is exactly five characters shorter |
| `Ledger.RoomBadgeOfRoomName` | App.tsx:196 | A name starting with "Room " has the rest of the name as its badge |
| `Ledger.RoomBadgeRemovesFirstOnly` | App.tsx:196 | Only the first occurrence of "Room " is cut out; the text before and after it stays |
| `Ledger.RoomBadgeRepeated` | App.tsx:196 | "Room Room 1" has the badge "Room 1" |
| `Ledger.ExampleContributions` | App.tsx:25-37 | Rooms (5000, 50000) and (3000, 30000) give totals 8000 and 80000 |
| `Ledger.ExampleBalance` | App.tsx:33 | Contributions 8000 and expenses 1200 give the balance 6800 |
| `Ledger.ExampleMonthFilter` | App.tsx:21-31 | For "2023-10", expenses dated 2023-10-05 (1200) and 2023-09-20 (800) filter to the first only, with a monthly total of 1200 |
| `Sequences.ReduceIsSum` | App.tsx:26 | A `reduce` left fold from any accumulator equals the accumulator plus the reference sum |
| `Sequences.ReduceAppend` | App.tsx:26 | Folding `a + b` is folding `b` starting from the result of folding `a` |
| `Sequences.SumAppend` | App.tsx:26 | The sum over `a + b` is sum(a) + sum(b) |
| `Sequences.SumPermutation` | App.tsx:26 | Sequences with equal multisets have equal sums |
| `Sequences.SumNonNegative` | App.tsx:40 | A sum of non-negative values is non-negative |
| `Sequences.SumSubsequenceLe` | App.tsx:29-41 | With non-negative values, a subsequence's sum is at most the whole sequence's sum |
| `Sequences.SubsequenceReflexive` | App.tsx:233 | Every list is a subsequence of itself (this gives the expanded feed's case) |
| `Sequences.SubsequenceMembers` | App.tsx:22 | Every element of a subsequence belongs to the original list |
| `JsString.StartsWithIsOccursAtZero` | App.tsx:22 | `startsWith` holds exactly when the pattern occurs at index 0 |
| `JsString.IndexOfFrom` | App.tsx:196 | The search from position `from` finds the first occurrence at or after `from`, or reports that there is none |
| `JsString.IndexOf` | App.tsx:196 | The result is the first occurrence of the pattern. It is absent exactly when the pattern occurs nowhere |
| `JsString.ReplaceFirst` | App.tsx:196 | With no occurrence the string is unchanged. Otherwise the length changes by the replacement's length minus the pattern's length |
| `JsString.ReplaceFirstAt` | App.tsx:196 | At the first occurrence `i`, the result is the text before `i`, then the replacement, then the text after the occurrence |
| `JsString.ReplaceFirstPrefix` | App.tsx:196 | When `s` starts with the pattern, the result is the replacement followed by the rest of `s` |

## Left out

- `monthName` (App.tsx:16-19) and the per-card date label (App.tsx:237): they depend on JavaScript `Date` parsing and locale formatting.
- Number formatting with every `toLocaleString` call (App.tsx:162, 167, 203, 207, 245, 272, 276, 284) is locale-dependent presentation.
- Floating-point arithmetic on `number`: amounts are whole naira as unbounded `int`, so rounding and precision loss of large sums are not modelled.
- `useState`/`useMemo` mechanics, such as caching and re-rendering, are not modelled; each memoised value is a function of its inputs.
- JSX layout, styling, recharts charts (App.tsx:45-50 and the chart sections), the `StatCard` and `AnnouncementBar` components: presentation only. The components and `mockData` are not part of this model.
- The static use of `mockRooms`/`mockExpenses` is not modelled; the records are passed in as parameters.
- services/api.ts: an HTTP fetch with an environment-chosen base URL and JSON decoding. It is I/O and configuration.
- The `Announcement` and `MonthlySummary` interfaces in types.ts: the core computes nothing from them.
- `JsString.ReplaceFirst`: does not model the `$` substitution patterns of `replace`'s replacement string, because the badge's replacement is empty.
- Strings are sequences of Unicode scalar values, whereas JavaScript strings are sequences of UTF-16 code units. So lone surrogates cannot be represented, and `|r|` in `Ledger.RoomBadge` and `JsString.ReplaceFirst` counts code points, not JavaScript's `.length`. Prefix and first-occurrence matching still agree with JavaScript on well-formed strings, because both patterns (`"Room "` and the `YYYY-MM` month key) are ASCII.
