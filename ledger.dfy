/**
 The house ledger's summary figures, as the dashboard derives them from the
 room contribution records, the expense records and the selected month key.
 Amounts are whole naira (`int`); the two pieces of view state
 (`selectedMonth`, `showAllExpenses`) are parameters.
 */
module Ledger {
  import opened Sequences
  import opened JsString

  /** One room's contributions: this month's and accumulated over its lifetime. */
  datatype RoomContribution = RoomContribution(room: string, monthTotal: int, overallTotal: int)

  /** One expense; `dateAdded` is an ISO-like date such as "2023-10-05". */
  datatype Expense = Expense(id: string, dateAdded: string, description: string, amount: int)

  /** The figures the dashboard shows, derived afresh from its inputs. */
  datatype Summary = Summary(
    filteredExpenses: seq<Expense>,
    totalContributionsMonth: int,
    totalExpensesMonth: int,
    balanceMonth: int,
    totalContributionsAll: int,
    totalExpensesAll: int,
    balanceAll: int)

  function MonthTotalOf(r: RoomContribution): int { r.monthTotal }
  function OverallTotalOf(r: RoomContribution): int { r.overallTotal }
  function AmountOf(e: Expense): int { e.amount }

  /** The expense belongs to the month whose key prefixes its date. */
  predicate InMonth(e: Expense, month: string) {
    StartsWith(e.dateAdded, month)
  }

  /** `expenses.filter(e => e.date_added.startsWith(month))`. */
  function FilterByMonth(expenses: seq<Expense>, month: string): (r: seq<Expense>)
    ensures |r| <= |expenses|
    ensures forall i :: 0 <= i < |r| ==> InMonth(r[i], month)
    ensures forall e :: e in r <==> e in expenses && InMonth(e, month)
    ensures forall e :: multiset(r)[e] == if InMonth(e, month) then multiset(expenses)[e] else 0
    decreases |expenses|
  {
    if expenses == [] then []
    else
      assert expenses == [expenses[0]] + expenses[1..];
      (if InMonth(expenses[0], month) then [expenses[0]] else []) + FilterByMonth(expenses[1..], month)
  }

  /** `rooms.reduce((acc, curr) => acc + curr.month_total, 0)`. */
  function TotalContributionsMonth(rooms: seq<RoomContribution>): (r: int)
    ensures r == Sum(rooms, MonthTotalOf)
  {
    ReduceIsSum(rooms, MonthTotalOf, 0);
    Reduce(rooms, MonthTotalOf, 0)
  }

  /** `rooms.reduce((acc, curr) => acc + curr.overall_total, 0)`. */
  function TotalContributionsAll(rooms: seq<RoomContribution>): (r: int)
    ensures r == Sum(rooms, OverallTotalOf)
  {
    ReduceIsSum(rooms, OverallTotalOf, 0);
    Reduce(rooms, OverallTotalOf, 0)
  }

  /** `expenses.reduce((acc, curr) => acc + curr.amount, 0)`, the figure
      used both for the filtered list and for the full list. */
  function TotalExpenses(expenses: seq<Expense>): (r: int)
    ensures r == Sum(expenses, AmountOf)
  {
    ReduceIsSum(expenses, AmountOf, 0);
    Reduce(expenses, AmountOf, 0)
  }

  /** Contributions minus expenses, with no clamping at zero. */
  function Balance(contributions: int, expenses: int): (r: int)
    ensures r + expenses == contributions
    ensures r < 0 <==> expenses > contributions
  {
    contributions - expenses
  }

  /** Every derived figure of the dashboard for one selected month. */
  function Summarize(rooms: seq<RoomContribution>, expenses: seq<Expense>, selectedMonth: string): (s: Summary)
    ensures s.filteredExpenses == FilterByMonth(expenses, selectedMonth)
    ensures s.totalContributionsMonth == Sum(rooms, MonthTotalOf)
    ensures s.totalContributionsAll == Sum(rooms, OverallTotalOf)
    ensures s.totalExpensesMonth == Sum(s.filteredExpenses, AmountOf)
    ensures s.totalExpensesAll == Sum(expenses, AmountOf)
    ensures s.balanceMonth + s.totalExpensesMonth == s.totalContributionsMonth
    ensures s.balanceAll + s.totalExpensesAll == s.totalContributionsAll
  {
    var filtered := FilterByMonth(expenses, selectedMonth);
    var contributionsMonth := TotalContributionsMonth(rooms);
    var expensesMonth := TotalExpenses(filtered);
    var contributionsAll := TotalContributionsAll(rooms);
    var expensesAll := TotalExpenses(expenses);
    Summary(filtered, contributionsMonth, expensesMonth, Balance(contributionsMonth, expensesMonth),
            contributionsAll, expensesAll, Balance(contributionsAll, expensesAll))
  }

  /** The expense feed: every expense when expanded, else the selected month's. */
  function DisplayedFeed(expenses: seq<Expense>, selectedMonth: string, showAllExpenses: bool): (r: seq<Expense>)
    ensures IsSubsequence(r, expenses)
    ensures showAllExpenses ==> r == expenses
    ensures !showAllExpenses ==> r == FilterByMonth(expenses, selectedMonth)
  {
    if showAllExpenses then
      SubsequenceReflexive(expenses);
      expenses
    else
      FilterIsSubsequence(expenses, selectedMonth);
      FilterByMonth(expenses, selectedMonth)
  }

  /** The feed button flips the view. */
  function Toggle(showAllExpenses: bool): (r: bool)
    ensures r != showAllExpenses
  {
    !showAllExpenses
  }

  /** The letter badge of a room: `room.replace('Room ', '')`. */
  function RoomBadge(room: string): (r: string)
    ensures IndexOf(room, "Room ").None? ==> r == room
    ensures IndexOf(room, "Room ").Some? ==> |r| == |room| - 5
  {
    ReplaceFirst(room, "Room ", "")
  }

  // ---------------------------------------------------------------------------
  // Month filter

  /** The filter keeps its items in their original order. */
  lemma {:induction false} FilterIsSubsequence(expenses: seq<Expense>, month: string)
    ensures IsSubsequence(FilterByMonth(expenses, month), expenses)
    decreases |expenses|
  {
    if expenses != [] {
      FilterIsSubsequence(expenses[1..], month);
      var rest := FilterByMonth(expenses[1..], month);
      if InMonth(expenses[0], month) {
        assert FilterByMonth(expenses, month) == [expenses[0]] + rest;
        assert ([expenses[0]] + rest)[1..] == rest;
      } else {
        assert FilterByMonth(expenses, month) == rest;
        SubsequenceSkip(rest, expenses);
      }
    }
  }

  /** The filter distributes over concatenation of expense lists. */
  lemma {:induction false} FilterAppend(a: seq<Expense>, b: seq<Expense>, month: string)
    ensures FilterByMonth(a + b, month) == FilterByMonth(a, month) + FilterByMonth(b, month)
    decreases |a|
  {
    if a == [] {
      assert a + b == b;
    } else {
      assert (a + b)[0] == a[0];
      assert (a + b)[1..] == a[1..] + b;
      FilterAppend(a[1..], b, month);
    }
  }

  /** A list whose every item is in the month passes the filter unchanged. */
  lemma {:induction false} FilterKeepsAllInMonth(expenses: seq<Expense>, month: string)
    requires forall i :: 0 <= i < |expenses| ==> InMonth(expenses[i], month)
    ensures FilterByMonth(expenses, month) == expenses
    decreases |expenses|
  {
    if expenses != [] {
      assert InMonth(expenses[0], month);
      assert forall i :: 0 <= i < |expenses[1..]| ==> InMonth(expenses[1..][i], month) by {
        forall i | 0 <= i < |expenses[1..]| ensures InMonth(expenses[1..][i], month) {
          assert expenses[1..][i] == expenses[i + 1];
        }
      }
      FilterKeepsAllInMonth(expenses[1..], month);
      assert expenses == [expenses[0]] + expenses[1..];
    }
  }

  /** Filtering twice with the same month gives the once-filtered list. */
  lemma FilterIdempotent(expenses: seq<Expense>, month: string)
    ensures FilterByMonth(FilterByMonth(expenses, month), month) == FilterByMonth(expenses, month)
  {
    FilterKeepsAllInMonth(FilterByMonth(expenses, month), month);
  }

  /** With the empty month key every expense is kept. */
  lemma {:induction false} FilterEmptyMonthKeepsAll(expenses: seq<Expense>)
    ensures FilterByMonth(expenses, "") == expenses
    decreases |expenses|
  {
    if expenses != [] {
      assert InMonth(expenses[0], "");
      FilterEmptyMonthKeepsAll(expenses[1..]);
    }
  }

  // ---------------------------------------------------------------------------
  // Totals and balances

  /** Each total of a concatenation is the sum of the totals of its parts. */
  lemma TotalsAppend(ra: seq<RoomContribution>, rb: seq<RoomContribution>,
                     ea: seq<Expense>, eb: seq<Expense>, month: string)
    ensures TotalContributionsMonth(ra + rb) == TotalContributionsMonth(ra) + TotalContributionsMonth(rb)
    ensures TotalContributionsAll(ra + rb) == TotalContributionsAll(ra) + TotalContributionsAll(rb)
    ensures TotalExpenses(ea + eb) == TotalExpenses(ea) + TotalExpenses(eb)
    ensures TotalExpenses(FilterByMonth(ea + eb, month))
         == TotalExpenses(FilterByMonth(ea, month)) + TotalExpenses(FilterByMonth(eb, month))
  {
    SumAppend(ra, rb, MonthTotalOf);
    SumAppend(ra, rb, OverallTotalOf);
    SumAppend(ea, eb, AmountOf);
    FilterAppend(ea, eb, month);
    SumAppend(FilterByMonth(ea, month), FilterByMonth(eb, month), AmountOf);
  }

  /** Reordering the records does not change any total. */
  lemma TotalsOrderIndependent(ra: seq<RoomContribution>, rb: seq<RoomContribution>,
                               ea: seq<Expense>, eb: seq<Expense>)
    requires multiset(ra) == multiset(rb)
    requires multiset(ea) == multiset(eb)
    ensures TotalContributionsMonth(ra) == TotalContributionsMonth(rb)
    ensures TotalContributionsAll(ra) == TotalContributionsAll(rb)
    ensures TotalExpenses(ea) == TotalExpenses(eb)
  {
    SumPermutation(ra, rb, MonthTotalOf);
    SumPermutation(ra, rb, OverallTotalOf);
    SumPermutation(ea, eb, AmountOf);
  }

  /** With non-negative amounts, the month's expenses are bounded by the lifetime's. */
  lemma MonthExpensesBounded(expenses: seq<Expense>, month: string)
    requires AllNonNegative(expenses, AmountOf)
    ensures 0 <= TotalExpenses(FilterByMonth(expenses, month)) <= TotalExpenses(expenses)
  {
    var filtered := FilterByMonth(expenses, month);
    FilterIsSubsequence(expenses, month);
    SumSubsequenceLe(filtered, expenses, AmountOf);
    assert AllNonNegative(filtered, AmountOf) by {
      forall i | 0 <= i < |filtered| ensures AmountOf(filtered[i]) >= 0 {
        var e := filtered[i];
        SubsequenceMembers(filtered, expenses, e);
        var j :| 0 <= j < |expenses| && expenses[j] == e;
        assert AmountOf(expenses[j]) >= 0;
      }
    }
    SumNonNegative(filtered, AmountOf);
  }

  /** With non-negative amounts, the month's balance is at least the month's
      contributions minus the lifetime expenses. */
  lemma MonthBalanceBounds(rooms: seq<RoomContribution>, expenses: seq<Expense>, month: string)
    requires AllNonNegative(expenses, AmountOf)
    ensures var s := Summarize(rooms, expenses, month);
      s.totalContributionsMonth - s.totalExpensesAll <= s.balanceMonth <= s.totalContributionsMonth
  {
    MonthExpensesBounded(expenses, month);
  }

  /** The figures that do not depend on the filtered list are the same for
      every selected month. */
  lemma SummaryMonthIndependent(rooms: seq<RoomContribution>, expenses: seq<Expense>, m1: string, m2: string)
    ensures Summarize(rooms, expenses, m1).totalContributionsMonth == Summarize(rooms, expenses, m2).totalContributionsMonth
    ensures Summarize(rooms, expenses, m1).totalContributionsAll == Summarize(rooms, expenses, m2).totalContributionsAll
    ensures Summarize(rooms, expenses, m1).totalExpensesAll == Summarize(rooms, expenses, m2).totalExpensesAll
    ensures Summarize(rooms, expenses, m1).balanceAll == Summarize(rooms, expenses, m2).balanceAll
  {
  }

  /** No rooms and no expenses give an all-zero summary with an empty list. */
  lemma SummaryOfNothing(month: string)
    ensures Summarize([], [], month) == Summary([], 0, 0, 0, 0, 0, 0)
  {
  }

  // ---------------------------------------------------------------------------
  // Feed and badge

  /** Pressing the feed button twice restores the view; the compact feed is
      always part of the expanded one. */
  lemma FeedToggle(expenses: seq<Expense>, selectedMonth: string, showAllExpenses: bool)
    ensures DisplayedFeed(expenses, selectedMonth, Toggle(Toggle(showAllExpenses)))
         == DisplayedFeed(expenses, selectedMonth, showAllExpenses)
    ensures IsSubsequence(DisplayedFeed(expenses, selectedMonth, false),
                          DisplayedFeed(expenses, selectedMonth, true))
  {
  }

  /** A room named "Room X" gets the badge "X". */
  lemma RoomBadgeOfRoomName(room: string)
    requires StartsWith(room, "Room ")
    ensures RoomBadge(room) == room[5..]
  {
    ReplaceFirstPrefix(room, "Room ", "");
  }

  /** Only the first "Room " is removed; later ones stay. */
  lemma RoomBadgeRemovesFirstOnly(room: string, i: nat)
    requires OccursAt(room, "Room ", i)
    requires forall j: nat :: j < i ==> !OccursAt(room, "Room ", j)
    ensures RoomBadge(room) == room[..i] + room[i + 5..]
  {
    ReplaceFirstAt(room, "Room ", "", i);
  }

  /** The badge of "Room Room 1" is "Room 1". */
  lemma RoomBadgeRepeated()
    ensures RoomBadge("Room Room 1") == "Room 1"
  {
    RoomBadgeOfRoomName("Room Room 1");
  }

  // ---------------------------------------------------------------------------
  // Worked examples

  lemma ExampleContributions()
    ensures TotalContributionsMonth([RoomContribution("Room A", 5000, 50000), RoomContribution("Room B", 3000, 30000)]) == 8000
    ensures TotalContributionsAll([RoomContribution("Room A", 5000, 50000), RoomContribution("Room B", 3000, 30000)]) == 80000
  {
  }

  lemma ExampleBalance()
    ensures Balance(8000, 1200) == 6800
  {
  }

  lemma ExampleMonthFilter()
    ensures var e1 := Expense("1", "2023-10-05", "Gas", 1200);
      var e2 := Expense("2", "2023-09-20", "Water", 800);
      FilterByMonth([e1, e2], "2023-10") == [e1] && TotalExpenses(FilterByMonth([e1, e2], "2023-10")) == 1200
  {
    var e1 := Expense("1", "2023-10-05", "Gas", 1200);
    var e2 := Expense("2", "2023-09-20", "Water", 800);
    assert InMonth(e1, "2023-10");
    assert !InMonth(e2, "2023-10") by {
      assert e2.dateAdded[..7][6] != "2023-10"[6];
    }
    assert [e1, e2][1..] == [e2];
    assert FilterByMonth([e1, e2], "2023-10") == [e1];
    assert Sum([e1], AmountOf) == AmountOf(e1) + Sum([e1][1..], AmountOf);
    assert [e1][1..] == [];
  }
}
