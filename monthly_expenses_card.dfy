/** The "expenses of the month" card of the statistics page
    (frontend/src/features/statistics/components/MonthlyExpensesCard/MonthlyExpensesCard.jsx)
    as a function from its props to what it shows. Number formatting with
    `toFixed` is left to the renderer; the values are kept exact. */
module MonthlyExpensesCard {
  import opened Wrappers

  /** One month of the monthly summary; absent JSON fields are `None`. */
  datatype MonthData = MonthData(
    month: int,
    transactionCount: Option<int>,
    totalSpent: Option<real>,
    differenceFromPrevious: Option<real>,
    percentageChange: Option<real>)

  const MonthNames: seq<string> := ["Jan", "Fev", "Mar", "Abr", "Mai", "Jun", "Jul", "Ago", "Set", "Out", "Nov", "Dez"]

  /** What `getMonthName` yields: a short name, or the number itself. */
  datatype MonthName = Name(text: string) | Raw(number: int)

  /** `getMonthName`: `months[month - 1] || month`. */
  function GetMonthName(month: int): MonthName {
    if 1 <= month <= 12 then Name(MonthNames[month - 1]) else Raw(month)
  }

  /** The number of a short month name, the inverse of `GetMonthName`. */
  function MonthNumber(name: string): Option<int> {
    if name in MonthNames then
      var i :| 0 <= i < |MonthNames| && MonthNames[i] == name;
      Some(i + 1)
    else None
  }

  /** `currentMonth`: the last element, if any. */
  function CurrentMonth(monthlyData: seq<MonthData>): (r: Option<MonthData>)
    ensures r.Some? <==> |monthlyData| >= 1
    ensures r.Some? ==> r.value == monthlyData[|monthlyData| - 1]
  {
    if |monthlyData| >= 1 then Some(monthlyData[|monthlyData| - 1]) else None
  }

  /** `previousMonth`: the second to last element, if any. */
  function PreviousMonth(monthlyData: seq<MonthData>): (r: Option<MonthData>)
    ensures r.Some? <==> |monthlyData| >= 2
    ensures r.Some? ==> r.value == monthlyData[|monthlyData| - 2]
  {
    if |monthlyData| >= 2 then Some(monthlyData[|monthlyData| - 2]) else None
  }

  /** JavaScript's `x || 0` on an optional number. */
  function OrZero(x: Option<real>): real {
    if x.Some? then x.value else 0.0
  }

  function Abs(x: real): real {
    if x < 0.0 then -x else x
  }

  /** The comparison with the previous month. */
  datatype Comparison = Comparison(increase: bool, percentage: real, wording: string, previousName: MonthName)

  datatype CardView =
    | CardLoading
    | CardEmpty
    | Card(
        monthName: MonthName,
        value: real,
        comparison: Option<Comparison>,
        transactionCount: Option<int>,
        previousDetail: Option<(MonthName, real)>)

  /** The component. */
  function Render(monthlyData: seq<MonthData>, loading: bool): CardView {
    var current := CurrentMonth(monthlyData);
    var previous := PreviousMonth(monthlyData);
    if loading then CardLoading
    else if current.None? then CardEmpty
    else
      var c := current.value;
      var difference := OrZero(c.differenceFromPrevious);
      var percentage := OrZero(c.percentageChange);
      var isIncrease := difference > 0.0;
      Card(
        GetMonthName(c.month),
        OrZero(c.totalSpent),
        if previous.Some?
        then Some(Comparison(isIncrease, Abs(percentage), if isIncrease then "mais que" else "menos que",
                             GetMonthName(previous.value.month)))
        else None,
        c.transactionCount,
        if previous.Some? then Some((GetMonthName(previous.value.month), OrZero(previous.value.totalSpent))) else None)
  }

  // ---------------------------------------------------------------------
  // Properties

  /** The month table, and its inverse: every month from 1 to 12 has its own
      name, which reads back as the same number; other numbers are shown
      as they are. */
  lemma MonthNameRoundTrip(month: int)
    ensures GetMonthName(month).Name? <==> 1 <= month <= 12
    ensures 1 <= month <= 12 ==> MonthNumber(GetMonthName(month).text) == Some(month)
    ensures !(1 <= month <= 12) ==> GetMonthName(month) == Raw(month)
  {
    if 1 <= month <= 12 {
      var name := MonthNames[month - 1];
      var i :| 0 <= i < |MonthNames| && MonthNames[i] == name;
      assert i == month - 1;
    }
  }

  lemma MonthNameExamples()
    ensures GetMonthName(1) == Name("Jan") && GetMonthName(12) == Name("Dez")
    ensures GetMonthName(0) == Raw(0) && GetMonthName(13) == Raw(13)
  {
  }

  /** Loading wins; otherwise the card is empty exactly when there is no
      month at all; otherwise it shows the last month. */
  lemma RenderStates(monthlyData: seq<MonthData>, loading: bool)
    ensures loading ==> Render(monthlyData, loading) == CardLoading
    ensures !loading ==> (Render(monthlyData, loading) == CardEmpty <==> |monthlyData| == 0)
    ensures Render(monthlyData, loading).Card? ==>
              var last := monthlyData[|monthlyData| - 1];
              && Render(monthlyData, loading).monthName == GetMonthName(last.month)
              && Render(monthlyData, loading).transactionCount == last.transactionCount
  {
  }

  /** The comparison block and the previous month's detail appear exactly
      when there is a month before the current one, and then describe that
      month. */
  lemma ComparisonNeedsPreviousMonth(monthlyData: seq<MonthData>)
    requires Render(monthlyData, false).Card?
    ensures Render(monthlyData, false).comparison.Some? <==> |monthlyData| >= 2
    ensures Render(monthlyData, false).previousDetail.Some? <==> |monthlyData| >= 2
    ensures |monthlyData| >= 2 ==>
              var prev := monthlyData[|monthlyData| - 2];
              && Render(monthlyData, false).comparison.value.previousName == GetMonthName(prev.month)
              && Render(monthlyData, false).previousDetail.value == (GetMonthName(prev.month), OrZero(prev.totalSpent))
  {
  }

  /** The comparison reads as an increase exactly when the difference is
      positive, so no change reads as a decrease; the percentage shown is
      the magnitude of the change and never negative; missing fields count
      as zero. */
  lemma ComparisonMeaning(monthlyData: seq<MonthData>)
    requires Render(monthlyData, false).Card? && Render(monthlyData, false).comparison.Some?
    ensures var c := monthlyData[|monthlyData| - 1];
            var cmp := Render(monthlyData, false).comparison.value;
            && (cmp.increase <==> c.differenceFromPrevious.Some? && c.differenceFromPrevious.value > 0.0)
            && (cmp.wording == "mais que" <==> cmp.increase)
            && cmp.percentage >= 0.0
            && (cmp.percentage == OrZero(c.percentageChange) || cmp.percentage == -OrZero(c.percentageChange))
            && (c.percentageChange.None? ==> cmp.percentage == 0.0)
  {
  }

  /** The value shown is the current month's total, 0 when it is missing. */
  lemma ShownValue(monthlyData: seq<MonthData>)
    requires Render(monthlyData, false).Card?
    ensures var c := monthlyData[|monthlyData| - 1];
            Render(monthlyData, false).value == (if c.totalSpent.Some? then c.totalSpent.value else 0.0)
  {
  }
}
