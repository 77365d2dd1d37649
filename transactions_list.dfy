/** The "recent transactions" list of the statistics page
    (frontend/src/features/statistics/components/TransactionsList/TransactionsList.jsx)
    as a function from its props to what it shows. Times are milliseconds
    since the epoch; the clock reading and the parsing of date strings by
    `new Date` are parameters. */
module TransactionsList {
  import opened Wrappers
  import opened Strings

  /** One transaction as the list receives it; absent JSON fields are
      `None`. */
  datatype TransactionView = TransactionView(
    id: int,
    itemName: string,
    kind: string,
    quantity: Option<real>,
    price: Option<real>,
    totalValue: Option<real>,
    date: Option<string>,
    createdAt: Option<string>)

  // =====================================================================
  // Truncation

  /** JavaScript's `s.slice(0, end)` for an integer `end`: a negative end
      counts from the back. */
  function Slice<T>(s: seq<T>, end: int): (r: seq<T>)
    ensures |r| <= |s| && r == s[..|r|]
  {
    var stop := if end < 0 then (if |s| + end < 0 then 0 else |s| + end)
                else if end < |s| then end else |s|;
    s[..stop]
  }

  /** With a non-negative limit the list shows the first `limit`
      transactions, or all of them when there are fewer, in the order
      given; a negative limit drops that many from the end. */
  lemma SliceLength<T>(s: seq<T>, limit: int)
    ensures limit >= 0 ==> |Slice(s, limit)| == (if limit < |s| then limit else |s|)
    ensures limit < 0 ==> |Slice(s, limit)| == (if |s| + limit < 0 then 0 else |s| + limit)
    ensures forall i :: 0 <= i < |Slice(s, limit)| ==> Slice(s, limit)[i] == s[i]
  {
  }

  // =====================================================================
  // Relative time

  const MillisPerMinute := 60000
  const MillisPerHour := 3600000
  const MillisPerDay := 86400000

  /** What `formatDate` shows: a rough age, or the date itself once it is a
      week old. `new Date` of something that is not a date gives an invalid
      date, for which every comparison fails and which prints as such. */
  datatype TimeLabel =
    | JustNow
    | MinutesAgo(minutes: int)
    | HoursAgo(hours: int)
    | DaysAgo(days: int)
    | AbsoluteDate(instant: int)
    | InvalidDate

  /** `formatDate`. `Math.floor` of a quotient by a positive divisor is
      Dafny's integer division. */
  function FormatDate(instant: Option<int>, now: int): TimeLabel {
    if instant.None? then InvalidDate
    else
      var diffMs := now - instant.value;
      var diffMins := diffMs / MillisPerMinute;
      var diffHours := diffMs / MillisPerHour;
      var diffDays := diffMs / MillisPerDay;
      if diffMins < 1 then JustNow
      else if diffMins < 60 then MinutesAgo(diffMins)
      else if diffHours < 24 then HoursAgo(diffHours)
      else if diffDays < 7 then DaysAgo(diffDays)
      else AbsoluteDate(instant.value)
  }

  /** The text of a relative label; the absolute date is rendered by the
      browser's locale formatting and is not spelled out here. */
  function TimeText(l: TimeLabel): Option<string> {
    match l
    case JustNow => Some("Agora mesmo")
    case MinutesAgo(m) => Some(IntToString(m) + "min atrás")
    case HoursAgo(h) => Some(IntToString(h) + "h atrás")
    case DaysAgo(d) => Some(IntToString(d) + "d atrás")
    case AbsoluteDate(_) => None
    case InvalidDate => None
  }

  /** The buckets as ranges of elapsed time, both directions: each label is
      chosen exactly on its range, and the count it shows is the whole
      number of units elapsed, within the bucket's bounds. */
  lemma FormatDateBuckets(instant: int, now: int)
    ensures FormatDate(Some(instant), now) == JustNow <==> now - instant < MillisPerMinute
    ensures FormatDate(Some(instant), now).MinutesAgo? <==>
              MillisPerMinute <= now - instant < MillisPerHour
    ensures FormatDate(Some(instant), now).HoursAgo? <==>
              MillisPerHour <= now - instant < MillisPerDay
    ensures FormatDate(Some(instant), now).DaysAgo? <==>
              MillisPerDay <= now - instant < 7 * MillisPerDay
    ensures FormatDate(Some(instant), now).AbsoluteDate? <==> 7 * MillisPerDay <= now - instant
    ensures FormatDate(Some(instant), now).AbsoluteDate? ==> FormatDate(Some(instant), now).instant == instant
    ensures FormatDate(Some(instant), now).MinutesAgo? ==>
              var m := FormatDate(Some(instant), now).minutes;
              1 <= m < 60 && m * MillisPerMinute <= now - instant < (m + 1) * MillisPerMinute
    ensures FormatDate(Some(instant), now).HoursAgo? ==>
              var h := FormatDate(Some(instant), now).hours;
              1 <= h < 24 && h * MillisPerHour <= now - instant < (h + 1) * MillisPerHour
    ensures FormatDate(Some(instant), now).DaysAgo? ==>
              var d := FormatDate(Some(instant), now).days;
              1 <= d < 7 && d * MillisPerDay <= now - instant < (d + 1) * MillisPerDay
  {
    var diff := now - instant;
    DivBounds(diff, MillisPerMinute);
    DivBounds(diff, MillisPerHour);
    DivBounds(diff, MillisPerDay);
  }

  /** The defining bounds of Euclidean division by a positive divisor. */
  lemma DivBounds(a: int, b: int)
    requires b > 0
    ensures (a / b) * b <= a < (a / b + 1) * b
  {
  }

  /** A timestamp in the future is shown as "just now". */
  lemma FutureIsJustNow(instant: int, now: int)
    requires instant > now
    ensures FormatDate(Some(instant), now) == JustNow
  {
    FormatDateBuckets(instant, now);
  }

  /** The boundaries: 59 seconds is still "just now", one minute is
      "1min", an hour is "1h", and a full week shows the date. */
  lemma FormatDateBoundaries(now: int)
    ensures FormatDate(Some(now - 59000), now) == JustNow
    ensures FormatDate(Some(now - 60000), now) == MinutesAgo(1)
    ensures FormatDate(Some(now - 3599999), now) == MinutesAgo(59)
    ensures FormatDate(Some(now - 3600000), now) == HoursAgo(1)
    ensures FormatDate(Some(now - 86400000), now) == DaysAgo(1)
    ensures FormatDate(Some(now - 604800000), now) == AbsoluteDate(now - 604800000)
    ensures TimeText(MinutesAgo(5)) == Some("5" + "min atrás")
  {
    assert IntToString(5) == [DigitChar(5)] == "5";
  }

  // =====================================================================
  // One row

  const Entrada := "entrada"

  datatype Icon = ArrowUp | ArrowDown

  /** `getTypeClass`, `getTypeLabel`, `getTypeIcon` and the value's sign all
      test exact equality with "entrada"; everything else is shown as an
      outflow. */
  function TypeClass(kind: string): string {
    if kind == Entrada then "entrada" else "saida"
  }

  function TypeLabel(kind: string): string {
    if kind == Entrada then "Entrada" else "Saída"
  }

  function TypeIcon(kind: string): Icon {
    if kind == Entrada then ArrowUp else ArrowDown
  }

  function Sign(kind: string): char {
    if kind == Entrada then '+' else '-'
  }

  /** JavaScript's `x || 0` on an optional number. */
  function OrZero(x: Option<real>): real {
    if x.Some? then x.value else 0.0
  }

  /** The date field shown: `date`, or `created_at` when `date` is absent
      or empty. */
  function DateField(t: TransactionView): Option<string> {
    if t.date.Some? && t.date.value != "" then t.date else t.createdAt
  }

  /** The value shown: `total_value` when present, otherwise price times
      quantity, a missing factor counting as 0. */
  function ShownValue(t: TransactionView): real {
    if t.totalValue.Some? then t.totalValue.value else OrZero(t.price) * OrZero(t.quantity)
  }

  datatype Row = Row(
    transaction: TransactionView,
    clickable: bool,
    arrow: bool,
    onClick: Option<TransactionView>,
    typeClass: string,
    typeLabel: string,
    icon: Icon,
    sign: char,
    dateLabel: TimeLabel,
    quantity: real,
    value: real)

  /** One entry of the list. `hasCallback` says whether `onViewDetails` was
      given; `onClick` is the argument the callback receives on a click. */
  function RowOf(t: TransactionView, hasCallback: bool, now: int, instantOf: string -> Option<int>): Row {
    var field := DateField(t);
    var instant := if field.Some? then instantOf(field.value) else None;
    Row(t, hasCallback, hasCallback, if hasCallback then Some(t) else None,
        TypeClass(t.kind), TypeLabel(t.kind), TypeIcon(t.kind), Sign(t.kind),
        FormatDate(instant, now), OrZero(t.quantity), ShownValue(t))
  }

  // =====================================================================
  // The whole list

  datatype ListView = Loading | Empty | Items(rows: seq<Row>)

  /** How many transactions the list shows when no `limit` is given. */
  const DefaultLimit := 10

  /** The component: a loading skeleton, the empty state, or one row per
      transaction kept by the limit (`None` when none is given, which is
      the default 10). */
  function Render(transactions: seq<TransactionView>, limit: Option<int>, hasCallback: bool, loading: bool,
                  now: int, instantOf: string -> Option<int>): ListView
  {
    var limited := Slice(transactions, limit.GetOr(DefaultLimit));
    if loading then Loading
    else if |limited| == 0 then Empty
    else Items(seq(|limited|, i requires 0 <= i < |limited| => RowOf(limited[i], hasCallback, now, instantOf)))
  }

  // ---------------------------------------------------------------------
  // Properties

  /** Loading wins; otherwise the list is empty exactly when no transaction
      survives the limit; otherwise there is one row per kept transaction,
      in order — the first ten when no limit is given. */
  lemma RenderStates(transactions: seq<TransactionView>, limit: Option<int>, hasCallback: bool, loading: bool,
                     now: int, instantOf: string -> Option<int>)
    ensures var n := limit.GetOr(DefaultLimit);
            && (loading ==> Render(transactions, limit, hasCallback, loading, now, instantOf) == Loading)
            && (!loading ==> (Render(transactions, limit, hasCallback, loading, now, instantOf) == Empty <==>
                              Slice(transactions, n) == []))
    ensures Render(transactions, limit, hasCallback, loading, now, instantOf).Items? ==>
              var rows := Render(transactions, limit, hasCallback, loading, now, instantOf).rows;
              var n := limit.GetOr(DefaultLimit);
              && |rows| == |Slice(transactions, n)|
              && (n >= 0 ==> |rows| == (if n < |transactions| then n else |transactions|))
              && forall i :: 0 <= i < |rows| ==> rows[i].transaction == transactions[i]
  {
    SliceLength(transactions, limit.GetOr(DefaultLimit));
  }

  /** Without a `limit` the list shows at most ten rows: the first ten
      transactions, or all of them when there are fewer. */
  lemma DefaultShowsTen(transactions: seq<TransactionView>, hasCallback: bool, now: int, instantOf: string -> Option<int>)
    ensures Render(transactions, None, hasCallback, false, now, instantOf)
            == Render(transactions, Some(10), hasCallback, false, now, instantOf)
    ensures Render(transactions, None, hasCallback, false, now, instantOf).Items? ==>
              |Render(transactions, None, hasCallback, false, now, instantOf).rows|
              == if |transactions| < 10 then |transactions| else 10
  {
    RenderStates(transactions, None, hasCallback, false, now, instantOf);
  }

  /** The click affordances all depend on the callback alone: the row is
      marked clickable, shows the arrow and passes itself to the callback
      exactly when one was given. */
  lemma ClickOnlyWithCallback(t: TransactionView, hasCallback: bool, now: int, instantOf: string -> Option<int>)
    ensures RowOf(t, hasCallback, now, instantOf).clickable <==> hasCallback
    ensures RowOf(t, hasCallback, now, instantOf).arrow <==> hasCallback
    ensures RowOf(t, hasCallback, now, instantOf).onClick == (if hasCallback then Some(t) else None)
  {
  }

  /** The four type indicators always agree, and only the exact lower-case
      "entrada" counts as an inflow. */
  lemma TypeIndicatorsAgree(kind: string)
    ensures TypeClass(kind) == "entrada" <==> kind == Entrada
    ensures TypeLabel(kind) == "Entrada" <==> kind == Entrada
    ensures TypeIcon(kind) == ArrowUp <==> kind == Entrada
    ensures Sign(kind) == '+' <==> kind == Entrada
    ensures kind != Entrada ==> TypeClass(kind) == "saida" && TypeLabel(kind) == "Saída" && Sign(kind) == '-'
  {
  }

  lemma CapitalisedEntradaIsOutflow()
    ensures TypeClass("Entrada") == "saida" && Sign("Entrada") == '-'
  {
  }

  /** The date falls back to `created_at` only when `date` is missing or
      empty; the value falls back to price times quantity only when
      `total_value` is missing, so a total of 0 is shown as 0. */
  lemma Fallbacks(t: TransactionView)
    ensures t.date.Some? && t.date.value != "" ==> DateField(t) == t.date
    ensures t.date.None? || t.date == Some("") ==> DateField(t) == t.createdAt
    ensures t.totalValue.Some? ==> ShownValue(t) == t.totalValue.value
    ensures t.totalValue.None? && (t.price.None? || t.quantity.None?) ==> ShownValue(t) == 0.0
    ensures t.totalValue.None? && t.price.Some? && t.quantity.Some? ==>
              ShownValue(t) == t.price.value * t.quantity.value
  {
  }

  /** A row's date label is computed from the field `DateField` picks; with
      neither field present the date is invalid. */
  lemma RowDate(t: TransactionView, hasCallback: bool, now: int, instantOf: string -> Option<int>)
    ensures DateField(t).None? ==> RowOf(t, hasCallback, now, instantOf).dateLabel == InvalidDate
    ensures DateField(t).Some? ==>
              RowOf(t, hasCallback, now, instantOf).dateLabel == FormatDate(instantOf(DateField(t).value), now)
  {
  }
}
