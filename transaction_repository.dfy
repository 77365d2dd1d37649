/** The transaction table and the queries over it
    (backend/repositories/transaction.py). The database session becomes a
    `TransactionStore` object holding the table as a map from id to record;
    the result rows of a query become sequences of records; "now" is a
    parameter. */
module TransactionRepository {
  import opened Wrappers
  import opened Strings

  /** A point in time: a day number and the milliseconds elapsed in it. */
  datatype Timestamp = Timestamp(day: int, millisOfDay: nat)

  /** One stock movement. `id` is `None` until the database assigns one;
      `price` is `None` when no price was recorded. */
  datatype Transaction = Transaction(
    id: Option<int>,
    itemId: int,
    orderType: string,
    description: string,
    createAt: Timestamp,
    amount: real,
    price: Option<real>)

  /** The columns of an item row that the queries read. */
  datatype Item = Item(id: int, name: string, amount: real)

  /** Python's `if transaction.id:` — an id is set when present and non-zero. */
  predicate HasId(t: Transaction) {
    t.id.Some? && t.id.value != 0
  }

  /** The transaction table. `nextId` is larger than every id the table
      holds, and is the id the database hands to the next insert. */
  class TransactionStore {
    var records: map<int, Transaction>
    var nextId: int

    ghost predicate Valid()
      reads this
    {
      && nextId >= 1
      && forall k :: k in records ==> k != 0 && k < nextId && records[k].id == Some(k)
    }

    constructor ()
      ensures Valid() && records == map[]
    {
      records := map[];
      nextId := 1;
    }

    /** `save`: a record whose id is set is merged, replacing the record
        stored under that id or adding it when there is none; any other
        record is inserted under a new id. The record returned is the one
        stored. */
    method Save(t: Transaction) returns (saved: Transaction)
      requires Valid()
      modifies this
      ensures Valid()
      ensures HasId(t) ==> saved == t && records == old(records)[t.id.value := t]
      ensures !HasId(t) ==>
                && saved == t.(id := saved.id)
                && saved.id.Some? && saved.id.value != 0 && saved.id.value !in old(records)
                && records == old(records)[saved.id.value := saved]
    {
      if HasId(t) {
        var k := t.id.value;
        records := records[k := t];
        if k >= nextId {
          nextId := k + 1;
        }
        saved := t;
      } else {
        saved := t.(id := Some(nextId));
        records := records[nextId := saved];
        nextId := nextId + 1;
      }
    }

    /** `find_by_id`: the stored record with this id, if any; the record
        found carries that id. */
    function FindById(id: int): (r: Option<Transaction>)
      requires Valid()
      reads this
      ensures r.Some? <==> id in records
      ensures r.Some? ==> r.value == records[id] && r.value.id == Some(id) && id != 0
    {
      if id in records then Some(records[id]) else None
    }

    /** `exists_by_id`: whether `find_by_id` finds a record. */
    function ExistsById(id: int): (r: bool)
      requires Valid()
      reads this
      ensures r <==> FindById(id).Some?
      ensures r ==> id != 0
    {
      id in records
    }

    /** `find_by_item_id`: exactly the stored records of one item. */
    function FindByItemId(itemId: int): (r: set<Transaction>)
      reads this
      ensures forall k :: k in records ==> (records[k] in r <==> records[k].itemId == itemId)
      ensures forall t :: t in r ==> t in records.Values && t.itemId == itemId
    {
      set k | k in records && records[k].itemId == itemId :: records[k]
    }

    /** `delete_by_id`: removes the record with this id when there is one
        and changes nothing otherwise. */
    method DeleteById(id: int)
      requires Valid()
      modifies this
      ensures Valid()
      ensures records == old(records) - {id}
      ensures id !in old(records) ==> records == old(records)
      ensures nextId == old(nextId)
    {
      if id in records {
        records := records - {id};
      }
    }
  }

  // =====================================================================
  // Summary of entries and exits over a period

  /** A period as two day numbers. */
  datatype Period = Period(startDay: int, endDay: int)

  datatype Totals = Totals(count: nat, totalAmount: real, totalValue: real)

  /** The accumulators of the summary loop: entries and exits. */
  datatype Tally = Tally(entries: Totals, exits: Totals)

  datatype Summary = Summary(
    period: Period,
    entries: Totals,
    exits: Totals,
    balanceAmount: real,
    balanceValue: real)

  const NoTotals := Totals(0, 0.0, 0.0)

  /** How a record is classified by its lower-cased order type. */
  datatype OrderKind = Entry | Exit | Other

  function Classify(orderType: string): OrderKind {
    var lowered := Lower(orderType);
    if lowered == "entrada" then Entry
    else if lowered == "saida" then Exit
    else Other
  }

  /** `trans.price or Decimal('0')`. */
  function PriceOrZero(t: Transaction): real {
    t.price.GetOr(0.0)
  }

  function Value(t: Transaction): real {
    t.amount * PriceOrZero(t)
  }

  function AddTo(acc: Totals, t: Transaction): Totals {
    Totals(acc.count + 1, acc.totalAmount + t.amount, acc.totalValue + Value(t))
  }

  /** One iteration of the summary loop. */
  function Step(acc: Tally, t: Transaction): Tally {
    match Classify(t.orderType)
    case Entry => acc.(entries := AddTo(acc.entries, t))
    case Exit => acc.(exits := AddTo(acc.exits, t))
    case Other => acc
  }

  /** What the summary loop has accumulated after visiting `rows` in order. */
  function TallyOf(rows: seq<Transaction>): Tally
    decreases |rows|
  {
    if |rows| == 0 then Tally(NoTotals, NoTotals)
    else Step(TallyOf(rows[..|rows| - 1]), rows[|rows| - 1])
  }

  /** The period asked for; a missing end is `now`, a missing start is thirty
      days before `now`. Only the calendar days are used. */
  function SummaryPeriod(start: Option<Timestamp>, end: Option<Timestamp>, now: Timestamp): (p: Period)
    ensures end.None? ==> p.endDay == now.day
    ensures start.None? ==> p.startDay == now.day - 30
    ensures start.Some? ==> p.startDay == start.value.day
    ensures end.Some? ==> p.endDay == end.value.day
  {
    var s := if start.Some? then start.value else Timestamp(now.day - 30, now.millisOfDay);
    var e := if end.Some? then end.value else now;
    Period(s.day, e.day)
  }

  /** The record was created on a day of the period, both ends included. */
  predicate InPeriod(t: Transaction, p: Period) {
    p.startDay <= t.createAt.day <= p.endDay
  }

  /** The filter as written: the creation timestamp is compared with the
      dates of the bounds, which stand for their midnights, so on the end
      day only a record created at exactly midnight passes. */
  predicate InPeriodAsWritten(t: Transaction, p: Period) {
    && p.startDay <= t.createAt.day
    && (t.createAt.day < p.endDay || (t.createAt.day == p.endDay && t.createAt.millisOfDay == 0))
  }

  function RowsInPeriod(rows: seq<Transaction>, p: Period): (r: seq<Transaction>)
    ensures |r| <= |rows|
    ensures forall t {:trigger t in r} :: t in r <==> t in rows && InPeriod(t, p)
  {
    if |rows| == 0 then []
    else (if InPeriod(rows[0], p) then [rows[0]] else []) + RowsInPeriod(rows[1..], p)
  }

  function RowsInPeriodAsWritten(rows: seq<Transaction>, p: Period): (r: seq<Transaction>)
    ensures forall t {:trigger t in r} :: t in r <==> t in rows && InPeriodAsWritten(t, p)
  {
    if |rows| == 0 then []
    else (if InPeriodAsWritten(rows[0], p) then [rows[0]] else []) + RowsInPeriodAsWritten(rows[1..], p)
  }

  function SummaryFrom(p: Period, tally: Tally): (s: Summary)
    ensures s.period == p && s.entries == tally.entries && s.exits == tally.exits
    ensures s.balanceAmount == s.entries.totalAmount - s.exits.totalAmount
    ensures s.balanceValue == s.entries.totalValue - s.exits.totalValue
  {
    Summary(p, tally.entries, tally.exits,
            tally.entries.totalAmount - tally.exits.totalAmount,
            tally.entries.totalValue - tally.exits.totalValue)
  }

  /** The summary of the records of `rows` that lie in the period. */
  function SummaryOf(rows: seq<Transaction>, start: Option<Timestamp>, end: Option<Timestamp>, now: Timestamp): Summary {
    var p := SummaryPeriod(start, end, now);
    SummaryFrom(p, TallyOf(RowsInPeriod(rows, p)))
  }

  /** The summary with the period filter as written. */
  function SummaryOfAsWritten(rows: seq<Transaction>, start: Option<Timestamp>, end: Option<Timestamp>, now: Timestamp): Summary {
    var p := SummaryPeriod(start, end, now);
    SummaryFrom(p, TallyOf(RowsInPeriodAsWritten(rows, p)))
  }

  /** `find_transaction_summary_by_period` over the rows of the table: one
      pass over the records in the period, updating six accumulators. */
  method FindTransactionSummaryByPeriod(rows: seq<Transaction>, start: Option<Timestamp>, end: Option<Timestamp>, now: Timestamp)
    returns (s: Summary)
    ensures s == SummaryOf(rows, start, end, now)
    ensures s.balanceAmount == s.entries.totalAmount - s.exits.totalAmount
    ensures s.balanceValue == s.entries.totalValue - s.exits.totalValue
  {
    var period := SummaryPeriod(start, end, now);
    var transactions := RowsInPeriod(rows, period);
    var totalEntries, totalExits, valueEntries, valueExits := 0.0, 0.0, 0.0, 0.0;
    var countEntries, countExits := 0, 0;
    for i := 0 to |transactions|
      invariant TallyOf(transactions[..i]) ==
                Tally(Totals(countEntries, totalEntries, valueEntries), Totals(countExits, totalExits, valueExits))
    {
      var trans := transactions[i];
      assert transactions[..i + 1][..i] == transactions[..i];
      assert TallyOf(transactions[..i + 1]) == Step(TallyOf(transactions[..i]), trans);
      var lowered := Lower(trans.orderType);
      if lowered == "entrada" {
        StepOfEntry(TallyOf(transactions[..i]), trans);
        totalEntries := totalEntries + trans.amount;
        valueEntries := valueEntries + trans.amount * PriceOrZero(trans);
        countEntries := countEntries + 1;
      } else if lowered == "saida" {
        StepOfExit(TallyOf(transactions[..i]), trans);
        totalExits := totalExits + trans.amount;
        valueExits := valueExits + trans.amount * PriceOrZero(trans);
        countExits := countExits + 1;
      } else {
        StepOfOther(TallyOf(transactions[..i]), trans);
      }
    }
    assert transactions[..|transactions|] == transactions;
    s := Summary(period, Totals(countEntries, totalEntries, valueEntries), Totals(countExits, totalExits, valueExits),
                 totalEntries - totalExits, valueEntries - valueExits);
  }

  /** The three branches of the summary loop's body. */
  lemma StepOfEntry(acc: Tally, t: Transaction)
    requires Lower(t.orderType) == "entrada"
    ensures Step(acc, t) == Tally(Totals(acc.entries.count + 1, acc.entries.totalAmount + t.amount,
                                         acc.entries.totalValue + t.amount * PriceOrZero(t)), acc.exits)
  {
  }

  lemma StepOfExit(acc: Tally, t: Transaction)
    requires Lower(t.orderType) == "saida"
    ensures Step(acc, t) == Tally(acc.entries, Totals(acc.exits.count + 1, acc.exits.totalAmount + t.amount,
                                                      acc.exits.totalValue + t.amount * PriceOrZero(t)))
  {
  }

  lemma StepOfOther(acc: Tally, t: Transaction)
    requires Lower(t.orderType) != "entrada" && Lower(t.orderType) != "saida"
    ensures Step(acc, t) == acc
  {
  }

  // ---------------------------------------------------------------------
  // An independent description of the tally: filter, then add up

  function Select(rows: seq<Transaction>, kind: OrderKind): (r: seq<Transaction>)
    ensures forall t {:trigger t in r} :: t in r <==> t in rows && Classify(t.orderType) == kind
  {
    if |rows| == 0 then []
    else (if Classify(rows[0].orderType) == kind then [rows[0]] else []) + Select(rows[1..], kind)
  }

  function SumAmounts(rows: seq<Transaction>): real {
    if |rows| == 0 then 0.0 else rows[0].amount + SumAmounts(rows[1..])
  }

  function SumValues(rows: seq<Transaction>): real {
    if |rows| == 0 then 0.0 else Value(rows[0]) + SumValues(rows[1..])
  }

  function TotalsOf(rows: seq<Transaction>): Totals {
    Totals(|rows|, SumAmounts(rows), SumValues(rows))
  }

  lemma {:induction false} SelectAppend(a: seq<Transaction>, b: seq<Transaction>, kind: OrderKind)
    ensures Select(a + b, kind) == Select(a, kind) + Select(b, kind)
    decreases |a|
  {
    if |a| > 0 {
      assert (a + b)[1..] == a[1..] + b;
      SelectAppend(a[1..], b, kind);
    } else {
      assert a + b == b;
    }
  }

  lemma {:induction false} SumsAppend(a: seq<Transaction>, b: seq<Transaction>)
    ensures SumAmounts(a + b) == SumAmounts(a) + SumAmounts(b)
    ensures SumValues(a + b) == SumValues(a) + SumValues(b)
    decreases |a|
  {
    if |a| > 0 {
      assert (a + b)[1..] == a[1..] + b;
      SumsAppend(a[1..], b);
    } else {
      assert a + b == b;
    }
  }

  /** The sums of `a + b` are the sums of `a` plus those of `b`. */
  lemma TotalsOfAppend(a: seq<Transaction>, b: seq<Transaction>)
    ensures TotalsOf(a + b) == Totals(TotalsOf(a).count + TotalsOf(b).count,
                                      TotalsOf(a).totalAmount + TotalsOf(b).totalAmount,
                                      TotalsOf(a).totalValue + TotalsOf(b).totalValue)
  {
    SumsAppend(a, b);
  }

  function SelectOne(t: Transaction, kind: OrderKind): (r: seq<Transaction>)
    ensures r == Select([t], kind)
  {
    assert [t][1..] == [];
    if Classify(t.orderType) == kind then [t] else []
  }

  /** The tally of a sequence, looked at for one kind. */
  function TotalsFor(tally: Tally, kind: OrderKind): Totals
    requires kind != Other
  {
    if kind == Entry then tally.entries else tally.exits
  }

  lemma StepTotals(acc: Tally, t: Transaction, kind: OrderKind)
    requires kind != Other
    ensures TotalsFor(Step(acc, t), kind)
            == if Classify(t.orderType) == kind then AddTo(TotalsFor(acc, kind), t) else TotalsFor(acc, kind)
  {
  }

  /** Appending one record adds it to the totals. */
  lemma TotalsSnoc(x: seq<Transaction>, t: Transaction)
    ensures TotalsOf(x + [t]) == AddTo(TotalsOf(x), t)
  {
    SumsAppend(x, [t]);
    assert [t][1..] == [];
  }

  lemma {:induction false} TallyForKind(rows: seq<Transaction>, kind: OrderKind)
    requires kind != Other
    ensures TotalsFor(TallyOf(rows), kind) == TotalsOf(Select(rows, kind))
    decreases |rows|
  {
    if |rows| > 0 {
      var init, last := rows[..|rows| - 1], rows[|rows| - 1];
      assert rows == init + [last];
      var one := SelectOne(last, kind);
      assert Select(rows, kind) == Select(init, kind) + one by {
        SelectAppend(init, [last], kind);
      }
      TallyForKind(init, kind);
      StepTotals(TallyOf(init), last, kind);
      if Classify(last.orderType) == kind {
        TotalsSnoc(Select(init, kind), last);
      } else {
        assert Select(init, kind) + one == Select(init, kind);
      }
    }
  }

  /** The loop's entry totals are the count and sums of the records whose
      lower-cased order type is 'entrada', and likewise for exits. */
  lemma TallyIsTotalsOfSelection(rows: seq<Transaction>)
    ensures TallyOf(rows).entries == TotalsOf(Select(rows, Entry))
    ensures TallyOf(rows).exits == TotalsOf(Select(rows, Exit))
  {
    TallyForKind(rows, Entry);
    TallyForKind(rows, Exit);
  }

  /** Entries and exits together are never more than the records in the
      period: records of any other order type count for neither. */
  lemma {:induction false} SelectionsBounded(rows: seq<Transaction>)
    ensures |Select(rows, Entry)| + |Select(rows, Exit)| + |Select(rows, Other)| == |rows|
    decreases |rows|
  {
    if |rows| > 0 {
      SelectionsBounded(rows[1..]);
    }
  }

  lemma SummaryCountsBounded(rows: seq<Transaction>, start: Option<Timestamp>, end: Option<Timestamp>, now: Timestamp)
    ensures var s := SummaryOf(rows, start, end, now);
            s.entries.count + s.exits.count <= |RowsInPeriod(rows, SummaryPeriod(start, end, now))|
  {
    var inRange := RowsInPeriod(rows, SummaryPeriod(start, end, now));
    TallyIsTotalsOfSelection(inRange);
    SelectionsBounded(inRange);
  }

  lemma TotalsInsert(a: seq<Transaction>, t: Transaction, b: seq<Transaction>, kind: OrderKind)
    ensures TotalsOf(Select(a + [t] + b, kind))
            == if Classify(t.orderType) == kind then AddTo(TotalsOf(Select(a + b, kind)), t)
               else TotalsOf(Select(a + b, kind))
  {
    var sa, st, sb := Select(a, kind), SelectOne(t, kind), Select(b, kind);
    SelectAppend(a + [t], b, kind);
    SelectAppend(a, [t], kind);
    SelectAppend(a, b, kind);
    SumsAppend(sa + st, sb);
    SumsAppend(sa, st);
    SumsAppend(sa, sb);
    assert SumAmounts(st) == (if Classify(t.orderType) == kind then t.amount else 0.0);
    assert SumValues(st) == (if Classify(t.orderType) == kind then Value(t) else 0.0);
  }

  /** Inserting a record anywhere in the period: an entry adds one to the
      count and its amount to the total, and its value — zero when it has
      no price; any order type other than 'entrada' or 'saida' (in any case)
      changes nothing. */
  lemma InsertRecord(a: seq<Transaction>, t: Transaction, b: seq<Transaction>)
    ensures Classify(t.orderType) == Entry ==>
              TallyOf(a + [t] + b).entries == AddTo(TallyOf(a + b).entries, t)
    ensures Classify(t.orderType) == Exit ==>
              TallyOf(a + [t] + b).exits == AddTo(TallyOf(a + b).exits, t)
    ensures Classify(t.orderType) == Other ==> TallyOf(a + [t] + b) == TallyOf(a + b)
    ensures AddTo(NoTotals, t) == Totals(1, t.amount, if t.price.None? then 0.0 else t.amount * t.price.value)
  {
    InsertRecordFor(a, t, b, Entry);
    InsertRecordFor(a, t, b, Exit);
    AddOneRecord(t);
  }

  /** A single record counts once, with its amount and its value. */
  lemma AddOneRecord(t: Transaction)
    ensures AddTo(NoTotals, t) == Totals(1, t.amount, if t.price.None? then 0.0 else t.amount * t.price.value)
  {
    if t.price.None? {
      assert Value(t) == t.amount * 0.0 == 0.0;
    }
  }

  lemma InsertRecordFor(a: seq<Transaction>, t: Transaction, b: seq<Transaction>, kind: OrderKind)
    requires kind != Other
    ensures TotalsFor(TallyOf(a + [t] + b), kind)
            == if Classify(t.orderType) == kind then AddTo(TotalsFor(TallyOf(a + b), kind), t)
               else TotalsFor(TallyOf(a + b), kind)
  {
    TallyForKind(a + [t] + b, kind);
    TallyForKind(a + b, kind);
    TotalsInsert(a, t, b, kind);
  }

  /** Order types are compared after lower-casing: 'SAIDA' is an exit, but
      the accented 'saída' and words such as 'compra' are neither entry nor
      exit. */
  lemma ClassifyExamples()
    ensures Classify("Entrada") == Entry && Classify("SAIDA") == Exit
    ensures Classify("saída") == Other && Classify("compra") == Other
  {
    assert Lower("Entrada") == "entrada";
    assert Lower("SAIDA") == "saida";
    assert Lower("saída") == "saída";
    assert Lower("compra") == "compra";
  }

  /** As written, the filter drops every record created after midnight on
      the end day; with the default period (ending now) that is every record
      of today. The corrected filter keeps them. */
  lemma EndDayDroppedAsWritten()
    ensures var now := Timestamp(100, 43200000);
            var t := Transaction(Some(1), 7, "entrada", "compra", Timestamp(100, 3600000), 2.0, Some(5.0));
            && SummaryOfAsWritten([t], None, None, now).entries.count == 0
            && SummaryOf([t], None, None, now).entries.count == 1
            && SummaryOf([t], None, None, now).entries.totalValue == 10.0
  {
    var now := Timestamp(100, 43200000);
    var t := Transaction(Some(1), 7, "entrada", "compra", Timestamp(100, 3600000), 2.0, Some(5.0));
    assert Lower("entrada") == "entrada";
    var p := SummaryPeriod(None, None, now);
    assert [t][1..] == [];
    assert RowsInPeriodAsWritten([t], p) == [];
    assert RowsInPeriod([t], p) == [t];
    assert [t][..0] == [];
  }

  /** The same filter when the timestamp is stored as text and compared
      with the date's text, as SQLite does: `'YYYY-MM-DD hh:mm:ss'` sorts
      after `'YYYY-MM-DD'`, so no record of the end day passes, not even
      one created at midnight. */
  predicate InPeriodAsWrittenOnText(t: Transaction, p: Period) {
    p.startDay <= t.createAt.day < p.endDay
  }

  /** On the end day the corrected filter keeps every record, the filter as
      written keeps only a record created exactly at midnight, and under
      text comparison it keeps none; on every other day the three agree. */
  lemma EndDayUnderBothReadings(t: Transaction, p: Period)
    requires p.startDay <= p.endDay
    ensures t.createAt.day == p.endDay ==>
              && InPeriod(t, p)
              && (InPeriodAsWritten(t, p) <==> t.createAt.millisOfDay == 0)
              && !InPeriodAsWrittenOnText(t, p)
    ensures t.createAt.day != p.endDay ==>
              (InPeriod(t, p) <==> InPeriodAsWritten(t, p)) && (InPeriod(t, p) <==> InPeriodAsWrittenOnText(t, p))
  {
  }

  /** The two filters agree on every day but the end day. */
  lemma PeriodFiltersAgreeBeforeEndDay(t: Transaction, p: Period)
    requires t.createAt.day != p.endDay
    ensures InPeriod(t, p) <==> InPeriodAsWritten(t, p)
  {
  }

  // =====================================================================
  // Consumption rate per item

  /** One result row of the consumption query before post-processing. */
  datatype ConsumptionGroup = ConsumptionGroup(itemId: int, itemName: string, currentStock: real, totalConsumed: real)

  datatype ConsumptionRow = ConsumptionRow(
    itemId: int,
    itemName: string,
    currentStock: real,
    totalConsumed: real,
    dailyAverage: real,
    daysUntilStockout: Option<int>)

  /** Python's `int(x)`: truncation toward zero. */
  function TruncateToInt(x: real): (r: int)
    ensures x >= 0.0 ==> r >= 0 && r as real <= x < r as real + 1.0
    ensures x < 0.0 ==> r <= 0 && r as real - 1.0 < x <= r as real
  {
    if x >= 0.0 then x.Floor else -((-x).Floor)
  }

  /** A record counts toward an item's consumption when it is an exit of
      that item (order type exactly 'saida') created on or after the start
      day. */
  predicate ConsumedBy(t: Transaction, itemId: int, startDay: int) {
    t.itemId == itemId && t.orderType == "saida" && t.createAt.day >= startDay
  }

  /** The items table's primary key: no two items share an id. */
  predicate DistinctIds(items: seq<Item>) {
    forall i, j :: 0 <= i < j < |items| ==> items[i].id != items[j].id
  }

  function ConsumptionOf(txs: seq<Transaction>, itemId: int, startDay: int): (r: seq<Transaction>)
    ensures forall t {:trigger t in r} :: t in r <==> t in txs && ConsumedBy(t, itemId, startDay)
  {
    if |txs| == 0 then []
    else (if ConsumedBy(txs[0], itemId, startDay) then [txs[0]] else []) + ConsumptionOf(txs[1..], itemId, startDay)
  }

  /** The grouped query: one group per item that has at least one exit in
      the window, in item order, with the summed amount of those exits. */
  function ConsumptionGroups(items: seq<Item>, txs: seq<Transaction>, startDay: int): (r: seq<ConsumptionGroup>)
    ensures |r| <= |items|
    ensures forall g :: g in r ==> exists it :: it in items && g.itemId == it.id && g.itemName == it.name
                                     && g.currentStock == it.amount
                                     && g.totalConsumed == SumAmounts(ConsumptionOf(txs, it.id, startDay))
                                     && |ConsumptionOf(txs, it.id, startDay)| > 0
  {
    if |items| == 0 then []
    else
      var it := items[0];
      var exits := ConsumptionOf(txs, it.id, startDay);
      (if |exits| > 0 then [ConsumptionGroup(it.id, it.name, it.amount, SumAmounts(exits))] else [])
      + ConsumptionGroups(items[1..], txs, startDay)
  }

  /** The post-processing of one group: the daily average over `days`, and
      the days until the stock runs out at that rate, which is given only
      when something was consumed. */
  function ConsumptionRowOf(g: ConsumptionGroup, days: int): (r: ConsumptionRow)
    requires days != 0
    ensures r.itemId == g.itemId && r.itemName == g.itemName
    ensures r.currentStock == g.currentStock && r.totalConsumed == g.totalConsumed
    ensures r.dailyAverage * days as real == g.totalConsumed
    ensures r.daysUntilStockout.Some? <==> g.totalConsumed > 0.0
    ensures r.daysUntilStockout.Some? ==>
              r.daysUntilStockout.value == TruncateToInt(g.currentStock / r.dailyAverage)
  {
    var daily := g.totalConsumed / days as real;
    ConsumptionRow(g.itemId, g.itemName, g.currentStock, g.totalConsumed, daily,
                   if g.totalConsumed > 0.0 then Some(TruncateToInt(g.currentStock / daily)) else None)
  }

  /** The window `find_consumption_rate_by_item` uses when the caller gives
      none. */
  const DefaultConsumptionDays := 30

  /** `find_consumption_rate_by_item`: an absent `days` is the default 30;
      `None` stands for the division by zero the query raises when `days`
      is 0 and some group exists. */
  function ConsumptionRates(items: seq<Item>, txs: seq<Transaction>, now: Timestamp, days: Option<int>): (r: Option<seq<ConsumptionRow>>)
    ensures var d := days.GetOr(DefaultConsumptionDays);
            && (r.None? <==> d == 0 && |ConsumptionGroups(items, txs, now.day - d)| > 0)
            && (r.Some? ==> |r.value| == |ConsumptionGroups(items, txs, now.day - d)|)
            && (r.Some? ==> forall i :: 0 <= i < |r.value| ==>
                  r.value[i] == ConsumptionRowOf(ConsumptionGroups(items, txs, now.day - d)[i], d))
  {
    var d := days.GetOr(DefaultConsumptionDays);
    var groups := ConsumptionGroups(items, txs, now.day - d);
    if |groups| == 0 then Some([])
    else if d == 0 then None
    else Some(seq(|groups|, i requires 0 <= i < |groups| => ConsumptionRowOf(groups[i], d)))
  }

  /** Without a `days` argument the rates are taken over the last 30 days
      and the division never fails. */
  lemma DefaultConsumptionWindow(items: seq<Item>, txs: seq<Transaction>, now: Timestamp)
    ensures ConsumptionRates(items, txs, now, None) == ConsumptionRates(items, txs, now, Some(30))
    ensures ConsumptionRates(items, txs, now, None).Some?
  {
  }

  /** Dropping the first item keeps the ids distinct, and none of the
      remaining items shares the first one's id. */
  lemma DistinctIdsTail(items: seq<Item>)
    requires DistinctIds(items) && |items| > 0
    ensures DistinctIds(items[1..])
    ensures forall it :: it in items[1..] ==> it.id != items[0].id
  {
    forall i, j | 0 <= i < j < |items[1..]| ensures items[1..][i].id != items[1..][j].id {
      assert items[1..][i] == items[i + 1] && items[1..][j] == items[j + 1];
    }
  }

  /** Every item with at least one exit in the window gets a group. */
  lemma {:induction false} ConsumptionGroupsComplete(items: seq<Item>, txs: seq<Transaction>, startDay: int, it: Item)
    requires it in items && |ConsumptionOf(txs, it.id, startDay)| > 0
    ensures exists g :: g in ConsumptionGroups(items, txs, startDay) && g.itemId == it.id
                        && g.totalConsumed == SumAmounts(ConsumptionOf(txs, it.id, startDay))
    decreases |items|
  {
    var rest := ConsumptionGroups(items[1..], txs, startDay);
    var exits := ConsumptionOf(txs, items[0].id, startDay);
    assert ConsumptionGroups(items, txs, startDay)
        == (if |exits| > 0 then [ConsumptionGroup(items[0].id, items[0].name, items[0].amount, SumAmounts(exits))] else []) + rest;
    if it == items[0] {
      var g := ConsumptionGroup(it.id, it.name, it.amount, SumAmounts(exits));
      assert g in ConsumptionGroups(items, txs, startDay);
    } else {
      ConsumptionGroupsComplete(items[1..], txs, startDay, it);
      var g :| g in rest && g.itemId == it.id && g.totalConsumed == SumAmounts(ConsumptionOf(txs, it.id, startDay));
      assert g in ConsumptionGroups(items, txs, startDay);
    }
  }

  /** With the items' ids distinct, as the primary key makes them, no item
      gets two groups. */
  lemma {:induction false} ConsumptionGroupsDistinct(items: seq<Item>, txs: seq<Transaction>, startDay: int)
    requires DistinctIds(items)
    ensures forall i, j :: 0 <= i < j < |ConsumptionGroups(items, txs, startDay)| ==>
              ConsumptionGroups(items, txs, startDay)[i].itemId != ConsumptionGroups(items, txs, startDay)[j].itemId
    decreases |items|
  {
    if |items| > 0 {
      var r := ConsumptionGroups(items, txs, startDay);
      var rest := ConsumptionGroups(items[1..], txs, startDay);
      var exits := ConsumptionOf(txs, items[0].id, startDay);
      DistinctIdsTail(items);
      ConsumptionGroupsDistinct(items[1..], txs, startDay);
      if |exits| > 0 {
        var h := ConsumptionGroup(items[0].id, items[0].name, items[0].amount, SumAmounts(exits));
        assert r == [h] + rest;
        forall j | 0 <= j < |rest| ensures rest[j].itemId != h.itemId {
          assert rest[j] in rest;
        }
        forall i, j | 0 <= i < j < |r| ensures r[i].itemId != r[j].itemId {
          assert r[j] == rest[j - 1];
          if i > 0 { assert r[i] == rest[i - 1]; }
        }
      } else {
        assert r == rest;
      }
    }
  }

  // =====================================================================
  // Most transacted items

  datatype ItemActivity = ItemActivity(itemId: int, itemName: string, transactionCount: nat, totalAmount: real, totalValue: real)

  /** `if order_type:` — a missing or empty order type means no filter; any
      other one must match exactly. */
  predicate MatchesOrderType(t: Transaction, orderType: Option<string>) {
    orderType.None? || orderType.value == "" || t.orderType == orderType.value
  }

  function ActivityOf(txs: seq<Transaction>, itemId: int, orderType: Option<string>): (r: seq<Transaction>)
    ensures forall t {:trigger t in r} :: t in r <==> t in txs && t.itemId == itemId && MatchesOrderType(t, orderType)
  {
    if |txs| == 0 then []
    else (if txs[0].itemId == itemId && MatchesOrderType(txs[0], orderType) then [txs[0]] else [])
         + ActivityOf(txs[1..], itemId, orderType)
  }

  /** The grouped query before ordering: one row per item with at least one
      matching record: how many, their summed amount, and their summed value
      over the records that have a price (SQL `SUM` skips NULL). */
  function Activities(items: seq<Item>, txs: seq<Transaction>, orderType: Option<string>): (r: seq<ItemActivity>)
    ensures forall a :: a in r ==> a.transactionCount > 0
    ensures forall a :: a in r ==> exists it :: it in items && a.itemId == it.id && a.itemName == it.name
                                     && a.transactionCount == |ActivityOf(txs, it.id, orderType)|
                                     && a.totalAmount == SumAmounts(ActivityOf(txs, it.id, orderType))
                                     && a.totalValue == SumValues(ActivityOf(txs, it.id, orderType))
  {
    if |items| == 0 then []
    else
      var it := items[0];
      var matching := ActivityOf(txs, it.id, orderType);
      (if |matching| > 0
       then [ItemActivity(it.id, it.name, |matching|, SumAmounts(matching), SumValues(matching))]
       else [])
      + Activities(items[1..], txs, orderType)
  }

  /** Every item with at least one matching record gets a row, carrying
      that item's count. */
  lemma {:induction false} ActivitiesComplete(items: seq<Item>, txs: seq<Transaction>, orderType: Option<string>, it: Item)
    requires it in items && |ActivityOf(txs, it.id, orderType)| > 0
    ensures exists a :: a in Activities(items, txs, orderType) && a.itemId == it.id
                        && a.transactionCount == |ActivityOf(txs, it.id, orderType)|
    decreases |items|
  {
    var rest := Activities(items[1..], txs, orderType);
    var matching := ActivityOf(txs, items[0].id, orderType);
    assert Activities(items, txs, orderType)
        == (if |matching| > 0
            then [ItemActivity(items[0].id, items[0].name, |matching|, SumAmounts(matching), SumValues(matching))]
            else []) + rest;
    if it == items[0] {
      var a := ItemActivity(it.id, it.name, |matching|, SumAmounts(matching), SumValues(matching));
      assert a in Activities(items, txs, orderType);
    } else {
      ActivitiesComplete(items[1..], txs, orderType, it);
      var a :| a in rest && a.itemId == it.id && a.transactionCount == |ActivityOf(txs, it.id, orderType)|;
      assert a in Activities(items, txs, orderType);
    }
  }

  /** With the items' ids distinct, no item gets two rows. */
  lemma {:induction false} ActivitiesDistinct(items: seq<Item>, txs: seq<Transaction>, orderType: Option<string>)
    requires DistinctIds(items)
    ensures forall i, j :: 0 <= i < j < |Activities(items, txs, orderType)| ==>
              Activities(items, txs, orderType)[i].itemId != Activities(items, txs, orderType)[j].itemId
    decreases |items|
  {
    if |items| > 0 {
      var r := Activities(items, txs, orderType);
      var rest := Activities(items[1..], txs, orderType);
      var matching := ActivityOf(txs, items[0].id, orderType);
      DistinctIdsTail(items);
      ActivitiesDistinct(items[1..], txs, orderType);
      if |matching| > 0 {
        var h := ItemActivity(items[0].id, items[0].name, |matching|, SumAmounts(matching), SumValues(matching));
        assert r == [h] + rest;
        forall j | 0 <= j < |rest| ensures rest[j].itemId != h.itemId {
          assert rest[j] in rest;
        }
        forall i, j | 0 <= i < j < |r| ensures r[i].itemId != r[j].itemId {
          assert r[j] == rest[j - 1];
          if i > 0 { assert r[i] == rest[i - 1]; }
        }
      } else {
        assert r == rest;
      }
    }
  }

  ghost predicate CountDescending(s: seq<ItemActivity>) {
    forall i, j :: 0 <= i < j < |s| ==> s[i].transactionCount >= s[j].transactionCount
  }

  /** In a count-descending list no later row counts more than the head. */
  lemma HeadDominates(s: seq<ItemActivity>, x: ItemActivity)
    requires CountDescending(s) && |s| > 0 && x in s[1..]
    ensures x.transactionCount <= s[0].transactionCount
  {
    var k :| 0 <= k < |s[1..]| && s[1..][k] == x;
    assert s[k + 1] == x;
  }

  /** A row with a count no lower than every row of a descending list may
      go in front of it. */
  lemma ConsDescending(h: ItemActivity, rest: seq<ItemActivity>)
    requires CountDescending(rest)
    requires forall x :: x in rest ==> x.transactionCount <= h.transactionCount
    ensures CountDescending([h] + rest)
  {
    var r := [h] + rest;
    forall i, j | 0 <= i < j < |r|
      ensures r[i].transactionCount >= r[j].transactionCount
    {
      assert r[j] == rest[j - 1];
      if i > 0 {
        assert r[i] == rest[i - 1];
      }
    }
  }

  /** Places `a` before the first row with a count not above its own. */
  function InsertByCount(a: ItemActivity, s: seq<ItemActivity>): (r: seq<ItemActivity>)
    requires CountDescending(s)
    ensures CountDescending(r)
    ensures multiset(r) == multiset(s) + multiset{a}
  {
    if |s| == 0 || s[0].transactionCount <= a.transactionCount then
      ConsDescending(a, s);
      [a] + s
    else
      var rest := InsertByCount(a, s[1..]);
      assert s == [s[0]] + s[1..];
      forall x | x in rest
        ensures x.transactionCount <= s[0].transactionCount
      {
        assert x in multiset(rest);
        if x != a {
          assert x in multiset(s[1..]);
          HeadDominates(s, x);
        }
      }
      ConsDescending(s[0], rest);
      [s[0]] + rest
  }

  /** `ORDER BY transaction_count DESC`: a count-descending permutation. */
  function SortByCount(s: seq<ItemActivity>): (r: seq<ItemActivity>)
    ensures CountDescending(r)
    ensures multiset(r) == multiset(s)
  {
    if |s| == 0 then []
    else
      assert s == [s[0]] + s[1..];
      InsertByCount(s[0], SortByCount(s[1..]))
  }

  /** SQL `LIMIT`: a negative limit is no limit. */
  function Limit(s: seq<ItemActivity>, limit: int): (r: seq<ItemActivity>)
    ensures limit >= 0 ==> |r| == if limit < |s| then limit else |s|
    ensures limit < 0 ==> r == s
    ensures r == s[..|r|]
  {
    if limit < 0 || limit >= |s| then s else s[..limit]
  }

  /** The row count `find_most_transacted_items` returns when the caller
      gives no limit. */
  const DefaultTopLimit := 10

  /** `find_most_transacted_items`: an absent limit is the default 10. */
  function MostTransactedItems(items: seq<Item>, txs: seq<Transaction>, orderType: Option<string>, limit: Option<int>): seq<ItemActivity> {
    Limit(SortByCount(Activities(items, txs, orderType)), limit.GetOr(DefaultTopLimit))
  }

  lemma PrefixOfSortedIsTop(sorted: seq<ItemActivity>, k: nat, a: ItemActivity, x: ItemActivity)
    requires CountDescending(sorted) && k <= |sorted|
    requires a in sorted && a !in sorted[..k] && x in sorted[..k]
    ensures x.transactionCount >= a.transactionCount
  {
    forall idx | 0 <= idx < k
      ensures sorted[idx] != a
    {
      assert sorted[idx] == sorted[..k][idx];
    }
    var j :| 0 <= j < |sorted| && sorted[j] == a;
    var i :| 0 <= i < k && sorted[..k][i] == x;
    assert sorted[i] == x;
  }

  /** The result is ordered by count, highest first; it has exactly
      `limit` rows, or all the groups when there are fewer (a missing limit
      is 10, a negative one keeps every group); each row is a row of the
      grouped query; and every group left out has a count no higher than
      any row kept. */
  lemma MostTransactedIsTopByCount(items: seq<Item>, txs: seq<Transaction>, orderType: Option<string>, limit: Option<int>)
    ensures var r := MostTransactedItems(items, txs, orderType, limit);
            var all := Activities(items, txs, orderType);
            var n := limit.GetOr(DefaultTopLimit);
            && CountDescending(r)
            && (n >= 0 ==> |r| == if n < |all| then n else |all|)
            && (n < 0 ==> multiset(r) == multiset(all))
            && multiset(r) <= multiset(all)
            && forall a, x :: a in all && a !in r && x in r ==> x.transactionCount >= a.transactionCount
  {
    TopByCount(Activities(items, txs, orderType), limit.GetOr(DefaultTopLimit));
  }

  /** Sorting by count and cutting at the limit keeps the rows with the
      highest counts, whatever the grouped rows are. */
  lemma TopByCount(all: seq<ItemActivity>, limit: int)
    ensures var r := Limit(SortByCount(all), limit);
            && CountDescending(r)
            && (limit >= 0 ==> |r| == if limit < |all| then limit else |all|)
            && (limit < 0 ==> multiset(r) == multiset(all))
            && multiset(r) <= multiset(all)
            && forall a, x :: a in all && a !in r && x in r ==> x.transactionCount >= a.transactionCount
  {
    var sorted := SortByCount(all);
    var r := Limit(sorted, limit);
    assert |sorted| == |all| by {
      assert |multiset(sorted)| == |multiset(all)|;
    }
    PrefixDescending(sorted, |r|);
    PrefixIsSubMultiset(sorted, |r|);
    forall a, x | a in all && a !in r && x in r
      ensures x.transactionCount >= a.transactionCount
    {
      assert a in multiset(all);
      assert a in sorted;
      PrefixOfSortedIsTop(sorted, |r|, a, x);
    }
  }

  lemma PrefixIsSubMultiset(s: seq<ItemActivity>, k: nat)
    requires k <= |s|
    ensures multiset(s[..k]) <= multiset(s)
  {
    assert s == s[..k] + s[k..];
  }

  lemma PrefixDescending(s: seq<ItemActivity>, k: nat)
    requires CountDescending(s) && k <= |s|
    ensures CountDescending(s[..k])
  {
    forall i, j | 0 <= i < j < k
      ensures s[..k][i].transactionCount >= s[..k][j].transactionCount
    {
      assert s[..k][i] == s[i] && s[..k][j] == s[j];
    }
  }
}
