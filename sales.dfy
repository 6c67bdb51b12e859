/**
 * The sales history page of src/pages/Sales.tsx: the demo sales, the
 * listing filtered by search text, date and the signed-in user's role, the
 * summed totals of the visible sales, and the lines of the CSV export.
 */
module Sales {
  import opened Collections
  import opened Text
  import opened AuthContext
  import opened CartSidebar

  /** A recorded sale; the amounts are whole naira. */
  datatype Sale = Sale(
    id: string,
    receiptNo: string,
    items: int,
    subtotal: int,
    discount: int,
    tax: int,
    total: int,
    paymentMethod: PaymentMethod,
    cashier: string,
    cashierId: string,
    date: string,
    time: string)

  const MockSales: seq<Sale> := [
    Sale("1", "DIFF-ABC123", 3, 95000, 5000, 6750, 96750, Cash, "Jane Cashier", "2", "2025-01-03", "14:32"),
    Sale("2", "DIFF-DEF456", 1, 35000, 0, 2625, 37625, Transfer, "Jane Cashier", "2", "2025-01-03", "13:15"),
    Sale("3", "DIFF-GHI789", 5, 180000, 18000, 12150, 174150, Pos, "John Smith", "3", "2025-01-03", "11:45"),
    Sale("4", "DIFF-JKL012", 2, 55000, 0, 4125, 59125, Cash, "Jane Cashier", "2", "2025-01-02", "16:20")
  ]

  /** The search box: the lower-cased query occurs in the receipt number or the cashier's name. */
  predicate MatchesSearch(s: Sale, query: string)
  {
    Includes(Lower(s.receiptNo), Lower(query)) || Includes(Lower(s.cashier), Lower(query))
  }

  /** The date picker: no date chosen, or exactly that date. */
  predicate MatchesDate(s: Sale, date: string)
  {
    date == "" || s.date == date
  }

  /** The role rule: an admin sees every sale, anyone else only the sales they rang up. */
  predicate MatchesUser(s: Sale, user: Option<User>)
  {
    IsAdmin(user) || (user.Some? && s.cashierId == user.value.id)
  }

  predicate Visible(s: Sale, query: string, date: string, user: Option<User>)
  {
    MatchesSearch(s, query) && MatchesDate(s, date) && MatchesUser(s, user)
  }

  /** `filteredSales`: the visible sales, in their original order. */
  function FilteredSales(sales: seq<Sale>, query: string, date: string, user: Option<User>): (r: seq<Sale>)
    ensures IsSubsequence(r, sales)
    ensures forall i :: 0 <= i < |r| ==> r[i] in sales && Visible(r[i], query, date, user)
    ensures forall i :: 0 <= i < |sales| && Visible(sales[i], query, date, user) ==> sales[i] in r
  {
    FilterMembers(sales, (s: Sale) => Visible(s, query, date, user));
    Filter(sales, (s: Sale) => Visible(s, query, date, user))
  }

  /** The filter keeps every copy of a visible sale and no copy of any other. */
  lemma FilteredSalesCounts(sales: seq<Sale>, query: string, date: string, user: Option<User>)
    ensures forall s :: multiset(FilteredSales(sales, query, date, user))[s]
                     == if Visible(s, query, date, user) then multiset(sales)[s] else 0
  {
    FilterCounts(sales, (s: Sale) => Visible(s, query, date, user));
  }

  /** The sum of `f` over the sales (the `reduce` with a start of 0). */
  function Sum(sales: seq<Sale>, f: Sale -> int): int
  {
    if sales == [] then 0 else f(sales[0]) + Sum(sales[1..], f)
  }

  /** The sum of `f` over the whole list, counting only the sales `p` keeps. */
  function MaskedSum(sales: seq<Sale>, p: Sale -> bool, f: Sale -> int): int
  {
    if sales == [] then 0 else (if p(sales[0]) then f(sales[0]) else 0) + MaskedSum(sales[1..], p, f)
  }

  /** The three summary cards. */
  datatype Totals = Totals(sales: int, discount: int, tax: int)

  function Summary(visible: seq<Sale>): Totals
  {
    Totals(Sum(visible, (s: Sale) => s.total), Sum(visible, (s: Sale) => s.discount), Sum(visible, (s: Sale) => s.tax))
  }

  /** Summing over the filtered list is summing over the whole list with the hidden sales counted as zero. */
  lemma {:induction false} SumFilter(sales: seq<Sale>, p: Sale -> bool, f: Sale -> int)
    ensures Sum(Filter(sales, p), f) == MaskedSum(sales, p, f)
  {
    if sales != [] {
      SumFilter(sales[1..], p, f);
      if p(sales[0]) {
        assert ([sales[0]] + Filter(sales[1..], p))[1..] == Filter(sales[1..], p);
      }
    }
  }

  /** With no negative amounts, the visible sum never exceeds the sum over all sales, and is not negative. */
  lemma {:induction false} MaskedSumBounds(sales: seq<Sale>, p: Sale -> bool, f: Sale -> int)
    requires forall i :: 0 <= i < |sales| ==> f(sales[i]) >= 0
    ensures 0 <= MaskedSum(sales, p, f) <= Sum(sales, f)
  {
    if sales != [] {
      MaskedSumBounds(sales[1..], p, f);
    }
  }

  /** The summary cards add up exactly the visible sales, and never more than all sales together. */
  lemma SummaryOfVisible(sales: seq<Sale>, query: string, date: string, user: Option<User>)
    requires forall i :: 0 <= i < |sales| ==> sales[i].total >= 0 && sales[i].discount >= 0 && sales[i].tax >= 0
    ensures var p := (s: Sale) => Visible(s, query, date, user);
            var t := Summary(FilteredSales(sales, query, date, user));
            && t.sales == MaskedSum(sales, p, (s: Sale) => s.total)
            && t.discount == MaskedSum(sales, p, (s: Sale) => s.discount)
            && t.tax == MaskedSum(sales, p, (s: Sale) => s.tax)
            && 0 <= t.sales <= Sum(sales, (s: Sale) => s.total)
            && 0 <= t.discount <= Sum(sales, (s: Sale) => s.discount)
            && 0 <= t.tax <= Sum(sales, (s: Sale) => s.tax)
  {
    var p := (s: Sale) => Visible(s, query, date, user);
    var total := (s: Sale) => s.total;
    var discount := (s: Sale) => s.discount;
    var tax := (s: Sale) => s.tax;
    SumFilter(sales, p, total);
    SumFilter(sales, p, discount);
    SumFilter(sales, p, tax);
    MaskedSumBounds(sales, p, total);
    MaskedSumBounds(sales, p, discount);
    MaskedSumBounds(sales, p, tax);
  }

  /** Someone who is not an admin sees only their own sales; with nobody signed in, nothing is visible. */
  lemma NonAdminSeesOwn(sales: seq<Sale>, query: string, date: string, user: Option<User>)
    requires !IsAdmin(user)
    ensures forall i :: 0 <= i < |FilteredSales(sales, query, date, user)| ==>
              user.Some? && FilteredSales(sales, query, date, user)[i].cashierId == user.value.id
    ensures user.None? ==> FilteredSales(sales, query, date, user) == []
  {
    var r := FilteredSales(sales, query, date, user);
    forall i | 0 <= i < |r|
      ensures user.Some? && r[i].cashierId == user.value.id
    {
      assert MatchesUser(r[i], user);
    }
  }

  /** For an admin the role rule excludes nothing: visibility is search and date alone. */
  lemma AdminSeesAll(sales: seq<Sale>, query: string, date: string, user: Option<User>)
    requires IsAdmin(user)
    ensures FilteredSales(sales, query, date, user)
         == Filter(sales, (s: Sale) => MatchesSearch(s, query) && MatchesDate(s, date))
  {
    FilterCongruent(sales, (s: Sale) => Visible(s, query, date, user),
                    (s: Sale) => MatchesSearch(s, query) && MatchesDate(s, date));
  }

  /** An empty search box and no date leave only the role rule. */
  lemma EmptyFiltersRoleOnly(sales: seq<Sale>, user: Option<User>)
    ensures FilteredSales(sales, "", "", user) == Filter(sales, (s: Sale) => MatchesUser(s, user))
  {
    forall i | 0 <= i < |sales|
      ensures MatchesSearch(sales[i], "")
    {
      IncludesEmpty(Lower(sales[i].receiptNo));
    }
    FilterCongruent(sales, (s: Sale) => Visible(s, "", "", user), (s: Sale) => MatchesUser(s, user));
  }

  /** Every demo sale is consistent: total = subtotal − discount + tax, the tax being 7.5% of subtotal − discount. */
  lemma MockSalesConsistent()
    ensures forall i :: 0 <= i < |MockSales| ==>
              && MockSales[i].total == MockSales[i].subtotal - MockSales[i].discount + MockSales[i].tax
              && MockSales[i].tax * 40 == (MockSales[i].subtotal - MockSales[i].discount) * 3
              && MockSales[i].total >= 0 && MockSales[i].discount >= 0 && MockSales[i].tax >= 0
  {
  }

  /** The demo cashier (id "2") sees sales 1, 2 and 4, and no date or search is needed to hide sale 3. */
  lemma CashierView()
    ensures FilteredSales(MockSales, "", "", Some(MockAccounts[1].user)) == [MockSales[0], MockSales[1], MockSales[3]]
  {
    var user := Some(MockAccounts[1].user);
    EmptyFiltersRoleOnly(MockSales, user);
    var p := (s: Sale) => MatchesUser(s, user);
    assert MockSales[1..][1..][1..] == [MockSales[3]];
    assert Filter(MockSales[1..][1..][1..], p) == [MockSales[3]];
    assert Filter(MockSales[1..][1..], p) == [MockSales[3]];
  }

  /** The demo cashier's summary cards: 193500 in sales, 5000 in discounts, 13500 in tax. */
  lemma CashierTotals()
    ensures Summary(FilteredSales(MockSales, "", "", Some(MockAccounts[1].user))) == Totals(193500, 5000, 13500)
  {
    CashierView();
  }

  /** The demo admin sees all four sales, worth 367650 in total. */
  lemma AdminView()
    ensures FilteredSales(MockSales, "", "", Some(MockAccounts[0].user)) == MockSales
    ensures Summary(MockSales) == Totals(367650, 23000, 25650)
  {
    var user := Some(MockAccounts[0].user);
    EmptyFiltersRoleOnly(MockSales, user);
    FilterAll(MockSales, (s: Sale) => MatchesUser(s, user));
  }

  /** The column headings of the export. */
  const Header: seq<string> := ["Receipt No", "Items", "Subtotal", "Discount", "Tax", "Total", "Payment", "Cashier", "Date", "Time"]

  /** One sale's fields in heading order, numbers written in decimal. */
  function Row(s: Sale): (r: seq<string>)
    ensures |r| == |Header|
  {
    [s.receiptNo, IntToString(s.items), IntToString(s.subtotal), IntToString(s.discount), IntToString(s.tax),
     IntToString(s.total), MethodName(s.paymentMethod), s.cashier, s.date, s.time]
  }

  /** One line per sale, in order. */
  function RowLines(visible: seq<Sale>): (r: seq<string>)
    ensures |r| == |visible|
    ensures forall i :: 0 <= i < |visible| ==> r[i] == Join(Row(visible[i]), ",")
  {
    if visible == [] then [] else [Join(Row(visible[0]), ",")] + RowLines(visible[1..])
  }

  /** The lines of the export: the heading line, then one line per visible sale. */
  function CsvLines(visible: seq<Sale>): (r: seq<string>)
    ensures |r| == |visible| + 1
    ensures r[0] == Join(Header, ",")
    ensures r[1..] == RowLines(visible)
  {
    [Join(Header, ",")] + RowLines(visible)
  }

  /** The `data:` URI text handed to the download link, before URI encoding. */
  function CsvContent(visible: seq<Sale>): (r: string)
    ensures "data:text/csv;charset=utf-8," <= r
  {
    "data:text/csv;charset=utf-8," + Join(CsvLines(visible), "\n")
  }

  /** Text holding neither a comma nor a line break. */
  predicate SafeField(t: string)
  {
    forall j :: 0 <= j < |t| ==> t[j] != ',' && t[j] != '\n'
  }

  /** A sale none of whose text fields holds a comma or a line break. */
  predicate CsvSafe(s: Sale)
  {
    SafeField(s.receiptNo) && SafeField(s.cashier) && SafeField(s.date) && SafeField(s.time)
  }

  /** The payment method names hold neither a comma nor a line break. */
  lemma MethodNameSafe(m: PaymentMethod)
    ensures ',' !in MethodName(m) && '\n' !in MethodName(m)
  {
  }

  /** A line of fields that hold no comma or line break holds no line break, and cuts back into its fields. */
  lemma LineReadsBack(fields: seq<string>)
    requires |fields| >= 1
    requires forall i :: 0 <= i < |fields| ==> SafeField(fields[i])
    ensures Split(Join(fields, ","), ',') == fields
    ensures '\n' !in Join(fields, ",")
  {
    assert forall i :: 0 <= i < |fields| ==> ',' !in fields[i] && '\n' !in fields[i];
    SplitJoin(fields, ',');
    JoinExcludes(fields, ",", '\n');
  }

  /** Lines without line breaks, joined with line breaks, cut back into those lines. */
  lemma LinesReadBack(lines: seq<string>)
    requires |lines| >= 1
    requires forall k :: 0 <= k < |lines| ==> '\n' !in lines[k]
    ensures Split(Join(lines, "\n"), '\n') == lines
  {
    SplitJoin(lines, '\n');
  }

  /** No heading holds a comma or a line break. */
  lemma HeaderSafe()
    ensures forall i :: 0 <= i < |Header| ==> SafeField(Header[i])
  {
  }

  /** A sale's line holds no line break, and cutting it at commas gives back its ten fields. */
  lemma RowReadsBack(s: Sale)
    requires CsvSafe(s)
    ensures Split(Join(Row(s), ","), ',') == Row(s)
    ensures '\n' !in Join(Row(s), ",")
  {
    MethodNameSafe(s.paymentMethod);
    LineReadsBack(Row(s));
  }

  /** The heading line holds no line break, and cutting it at commas gives back the ten headings. */
  lemma HeaderReadsBack()
    ensures Split(Join(Header, ","), ',') == Header
    ensures '\n' !in Join(Header, ",")
  {
    HeaderSafe();
    LineReadsBack(Header);
  }

  /** Every sale's line holds no line break and cuts back into that sale's fields. */
  lemma RowsReadBack(visible: seq<Sale>)
    requires forall i :: 0 <= i < |visible| ==> CsvSafe(visible[i])
    ensures forall i :: 0 <= i < |visible| ==>
              Split(RowLines(visible)[i], ',') == Row(visible[i]) && '\n' !in RowLines(visible)[i]
  {
    var rows := RowLines(visible);
    forall i | 0 <= i < |visible|
      ensures Split(rows[i], ',') == Row(visible[i]) && '\n' !in rows[i]
    {
      RowReadsBack(visible[i]);
    }
  }

  /** No line of the export holds a line break. */
  lemma LinesHaveNoBreaks(visible: seq<Sale>)
    requires forall i :: 0 <= i < |visible| ==> CsvSafe(visible[i])
    ensures forall k :: 0 <= k < |CsvLines(visible)| ==> '\n' !in CsvLines(visible)[k]
  {
    var lines := CsvLines(visible);
    var rows := RowLines(visible);
    var head := Join(Header, ",");
    assert lines == [head] + rows;
    HeaderReadsBack();
    RowsReadBack(visible);
    forall k | 0 <= k < |lines|
      ensures '\n' !in lines[k]
    {
      if k == 0 {
        assert lines[k] == head;
      } else {
        assert lines[k] == rows[k - 1];
      }
    }
  }
  /**
   * When no text field holds a comma or a line break, the export reads back:
   * cutting the body at line breaks gives the heading and one line per sale,
   * and cutting each sale's line at commas gives its ten fields.
   */
  lemma CsvReadsBack(visible: seq<Sale>)
    requires forall i :: 0 <= i < |visible| ==> CsvSafe(visible[i])
    ensures Split(Join(CsvLines(visible), "\n"), '\n') == CsvLines(visible)
    ensures Split(CsvLines(visible)[0], ',') == Header
    ensures forall i :: 0 <= i < |visible| ==> Split(RowLines(visible)[i], ',') == Row(visible[i])
  {
    HeaderReadsBack();
    RowsReadBack(visible);
    LinesHaveNoBreaks(visible);
    LinesReadBack(CsvLines(visible));
  }
}
