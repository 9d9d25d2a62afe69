/**
 * CoreDataManager over an abstract in-memory store: transaction, rate and
 * current-balance rows, fetched newest first with CoreData's offset/limit
 * paging. A store request that throws is modelled by `fault`, the error
 * text the store currently fails with; each failing request hands one
 * `coredata_error` event to the analytics service and returns an empty
 * result.
 */
module CoreData {
  import opened Wrappers
  import opened Text
  import opened Sequences
  import opened AnalyticsEvents

  datatype TransactionCategory = Groceries | Taxi | Electronics | Restaurant | Other

  /** A transaction as stored; `id` stands for the UUID. */
  datatype Transaction = Transaction(id: nat, category: TransactionCategory, amount: real, date: int)

  datatype Rate = Rate(id: nat, rate: real, date: int)

  datatype CurrentBalance = CurrentBalance(id: nat, balance: real, lastUpdated: int)

  function TransactionDate(t: Transaction): int {
    t.date
  }

  function TransactionId(t: Transaction): nat {
    t.id
  }

  function RateDate(r: Rate): int {
    r.date
  }

  function RateId(r: Rate): nat {
    r.id
  }

  function Min(a: int, b: int): int {
    if a <= b then a else b
  }

  /**
   * A fetch with `fetchOffset` and `fetchLimit`: the records from `offset`
   * on, at most `limit` of them, where a limit of 0 means no limit.
   */
  function Page<T>(s: seq<T>, offset: nat, limit: nat): (r: seq<T>)
    ensures |r| == if offset >= |s| then 0 else if limit == 0 then |s| - offset else Min(limit, |s| - offset)
    ensures offset >= |s| ==> r == []
    ensures offset < |s| ==> r == s[offset..offset + |r|]
  {
    if offset >= |s| then []
    else if limit == 0 || offset + limit > |s| then s[offset..]
    else s[offset..offset + limit]
  }

  /** Pages 0 to count-1 of s, one after another. */
  function Pages<T>(s: seq<T>, pageSize: nat, count: nat): seq<T> {
    if count == 0 then [] else Pages(s, pageSize, count - 1) + Page(s, (count - 1) * pageSize, pageSize)
  }

  /**
   * Reading pages 0, 1, ..., count-1 in turn yields exactly the first
   * count*pageSize records, with no record skipped or read twice.
   */
  lemma {:induction false} PagesArePrefix<T>(s: seq<T>, pageSize: nat, count: nat)
    requires pageSize > 0
    ensures Pages(s, pageSize, count) == s[..Min(count * pageSize, |s|)]
  {
    if count > 0 {
      PagesArePrefix(s, pageSize, count - 1);
      NextPageStart(count, pageSize);
      PageAfterPrefix(s, (count - 1) * pageSize, pageSize);
    }
  }

  /** The page of pageSize records at lo continues the first lo records. */
  lemma PageAfterPrefix<T>(s: seq<T>, lo: nat, pageSize: nat)
    requires pageSize > 0
    ensures s[..Min(lo, |s|)] + Page(s, lo, pageSize) == s[..Min(lo + pageSize, |s|)]
  {
    if lo < |s| {
      assert s[..lo] + s[lo..Min(lo + pageSize, |s|)] == s[..Min(lo + pageSize, |s|)];
    }
  }

  /** Page count-1 ends where page count starts. */
  lemma NextPageStart(count: nat, pageSize: nat)
    requires count > 0
    ensures count * pageSize == (count - 1) * pageSize + pageSize
  {
  }

  /** The records of s without the ones whose key is k; the others keep their order and count. */
  function RemoveKey<T(!new)>(s: seq<T>, key: T -> nat, k: nat): (r: seq<T>)
    ensures forall x :: x in r <==> x in s && key(x) != k
    ensures forall x :: key(x) != k ==> multiset(r)[x] == multiset(s)[x]
    ensures forall x :: key(x) == k ==> multiset(r)[x] == 0
  {
    if s == [] then []
    else
      var front := s[..|s| - 1];
      var last := s[|s| - 1];
      assert s == front + [last];
      RemoveKey(front, key, k) + (if key(last) == k then [] else [last])
  }

  /** The fetched rows walked one at a time, each row with key k deleted. */
  method DeleteEach<T(!new)>(rows: seq<T>, key: T -> nat, k: nat) returns (kept: seq<T>)
    ensures kept == RemoveKey(rows, key, k)
  {
    kept := [];
    var i := 0;
    while i < |rows|
      invariant 0 <= i <= |rows|
      invariant kept == RemoveKey(rows[..i], key, k)
    {
      assert rows[..i + 1][..i] == rows[..i];
      if key(rows[i]) != k {
        kept := kept + [rows[i]];
      }
      i := i + 1;
    }
    assert rows[..i] == rows;
  }

  /** `fetchLatestRate`: the first rate of the newest-first list, if any. */
  function LatestRate(rates: seq<Rate>): (r: Option<Rate>)
    ensures r.None? <==> rates == []
    ensures r.Some? ==> r.value in rates && forall x :: x in rates ==> x.date <= r.value.date
  {
    var sorted := SortDesc(rates, RateDate);
    if sorted == [] then None
    else
      HeadIsNewest(sorted, RateDate);
      assert forall x :: x in rates <==> x in multiset(sorted);
      Some(sorted[0])
  }

  /** `results.first` of an unsorted balance fetch. */
  function CurrentRow(rows: seq<CurrentBalance>): (r: Option<CurrentBalance>)
    ensures r.None? <==> rows == []
    ensures r.Some? ==> r.value in rows
  {
    if rows == [] then None else Some(rows[0])
  }

  /** The balance the app reads: the stored balance, or 0 when there is none. */
  function BalanceValue(rows: seq<CurrentBalance>): real {
    if rows == [] then 0.0 else rows[0].balance
  }

  /**
   * `updateCurrentBalance(by:)`: add `amount` to the existing row and stamp
   * it, or create a row holding `amount` when there is none.
   */
  function BalanceAfterUpdate(rows: seq<CurrentBalance>, amount: real, clock: int, newId: nat): (r: seq<CurrentBalance>)
    ensures BalanceValue(r) == BalanceValue(rows) + amount
    ensures r != [] && r[0].lastUpdated == clock
    ensures |r| == if rows == [] then 1 else |rows|
    ensures rows != [] ==> r[0].id == rows[0].id && r[1..] == rows[1..]
  {
    if rows == [] then [CurrentBalance(newId, amount, clock)]
    else rows[0 := rows[0].(balance := rows[0].balance + amount, lastUpdated := clock)]
  }

  /**
   * The balance rows `saveCurrentBalance` leaves behind: its clear step
   * removes every row unless the store throws, and the new row is inserted
   * either way.
   */
  function BalanceRowsAfterSave(rows: seq<CurrentBalance>, fault: Option<string>, b: CurrentBalance): (r: seq<CurrentBalance>)
    ensures fault.None? ==> r == [b]
    ensures fault.Some? ==> r == rows + [b] && |r| == |rows| + 1
  {
    (if fault.None? then [] else rows) + [b]
  }

  /**
   * As written, a save while the store throws keeps the old row next to the
   * new one: the singleton holds two balances.
   */
  lemma SaveBalanceUnderFaultKeepsTwoRows()
    ensures |BalanceRowsAfterSave([CurrentBalance(0, 1.0, 0)], Some("fetch failed"), CurrentBalance(1, 2.0, 1))| == 2
  {
  }

  /**
   * The intended save: replace the singleton when the clear succeeds, and
   * otherwise leave the store as it was. There is never more than one row.
   */
  function CheckedBalanceRowsAfterSave(rows: seq<CurrentBalance>, fault: Option<string>, b: CurrentBalance): (r: seq<CurrentBalance>)
    ensures fault.None? ==> r == [b]
    ensures fault.Some? ==> r == rows
    ensures |rows| <= 1 ==> |r| <= 1
  {
    if fault.None? then [b] else rows
  }

  /** The record a failing request hands to the analytics service. */
  function ErrorRecord(operation: string, error: string, clock: int, additional: Params): (r: EventRecord)
    ensures r.name == CoreDataErrorName
    ensures r.parameters.Keys == {"operation", "error", "timestamp"} + additional.Keys
  {
    CoreDataErrorEvent(operation, error, TimestampText(clock), additional).Record()
  }

  class CoreDataManager {
    var transactions: seq<Transaction>
    var rates: seq<Rate>
    var balances: seq<CurrentBalance>
    /** The events handed to the analytics service, oldest first. */
    var tracked: seq<EventRecord>
    /** The error text every store request currently throws, if any. */
    var fault: Option<string>
    /** The current time, in seconds, that `Date()` would return. */
    var clock: int
    /** The next UUID to hand out. */
    var nextId: nat
    /** `"\(amount)"` for a Double amount. */
    const show: real -> string

    /** The balance singleton: at most one row. */
    ghost predicate Valid()
      reads this
    {
      |balances| <= 1
    }

    constructor (show: real -> string, clock: int)
      ensures Valid()
      ensures transactions == [] && rates == [] && balances == [] && tracked == []
      ensures fault == None && this.clock == clock && nextId == 0 && this.show == show
    {
      transactions := [];
      rates := [];
      balances := [];
      tracked := [];
      fault := None;
      this.clock := clock;
      nextId := 0;
      this.show := show;
    }

    function Failed(operation: string, additional: Params): EventRecord
      requires fault.Some?
      reads this
    {
      ErrorRecord(operation, fault.value, clock, additional)
    }

    /** What `fetchTransactions(page:pageSize:)` returns in the current state. */
    function FetchedPage(page: nat, pageSize: nat): seq<Transaction>
      reads this
    {
      if fault.None? then Page(SortDesc(transactions, TransactionDate), page * pageSize, pageSize) else []
    }

    /** What `getTotalTransactionsCount` returns in the current state. */
    function TotalCount(): nat
      reads this
    {
      if fault.None? then |transactions| else 0
    }

    /** The events a failing request adds: one when the store throws, none otherwise. */
    function Failures(operation: string, additional: Params): seq<EventRecord>
      reads this
    {
      if fault.Some? then [Failed(operation, additional)] else []
    }

    // Transaction operations

    method SaveTransaction(t: Transaction)
      modifies this`transactions
      ensures transactions == old(transactions) + [t]
    {
      transactions := transactions + [t];
    }

    method FetchTransactions() returns (r: seq<Transaction>)
      modifies this`tracked
      ensures fault.None? ==> tracked == old(tracked) && multiset(r) == multiset(transactions) && SortedDesc(r, TransactionDate)
      ensures fault.None? ==> r == SortDesc(transactions, TransactionDate)
      ensures fault.Some? ==> r == [] && tracked == old(tracked) + [Failed("fetchTransactions()", map[])]
    {
      if fault.Some? {
        tracked := tracked + [Failed("fetchTransactions()", map[])];
        return [];
      }
      r := SortDesc(transactions, TransactionDate);
    }

    /** `fetchTransactions(page:pageSize:)`: one page of the newest-first list. */
    method FetchTransactionsPage(page: nat, pageSize: nat) returns (r: seq<Transaction>)
      modifies this`tracked
      ensures fault.None? ==> tracked == old(tracked) && r == Page(SortDesc(transactions, TransactionDate), page * pageSize, pageSize)
      ensures fault.None? && pageSize > 0 ==> |r| <= pageSize
      ensures fault.Some? ==> r == [] && tracked == old(tracked) + [Failed("fetchTransactions_page", map["page" := NatToString(page)])]
      ensures r == FetchedPage(page, pageSize) && tracked == old(tracked) + Failures("fetchTransactions_page", map["page" := NatToString(page)])
    {
      if fault.Some? {
        tracked := tracked + [Failed("fetchTransactions_page", map["page" := NatToString(page)])];
        return [];
      }
      r := Page(SortDesc(transactions, TransactionDate), page * pageSize, pageSize);
    }

    method GetTotalTransactionsCount() returns (n: nat)
      modifies this`tracked
      ensures fault.None? ==> n == |transactions| && tracked == old(tracked)
      ensures fault.Some? ==> n == 0 && tracked == old(tracked) + [Failed("getTotalTransactionsCount()", map[])]
      ensures n == TotalCount() && tracked == old(tracked) + Failures("getTotalTransactionsCount()", map[])
    {
      if fault.Some? {
        tracked := tracked + [Failed("getTotalTransactionsCount()", map[])];
        return 0;
      }
      n := |transactions|;
    }

    /** `deleteTransaction(withId:)`: delete every row with this id, one at a time. */
    method DeleteTransaction(id: nat)
      modifies this`transactions, this`tracked
      ensures fault.None? ==> transactions == RemoveKey(old(transactions), TransactionId, id) && tracked == old(tracked)
      ensures fault.Some? ==> transactions == old(transactions)
      ensures fault.Some? ==> tracked == old(tracked) + [Failed("deleteTransaction(withId:)", map["transaction_id" := NatToString(id)])]
      ensures tracked == old(tracked) + Failures("deleteTransaction(withId:)", map["transaction_id" := NatToString(id)])
    {
      if fault.Some? {
        tracked := tracked + [Failed("deleteTransaction(withId:)", map["transaction_id" := NatToString(id)])];
        return;
      }
      transactions := DeleteEach(transactions, TransactionId, id);
    }

    method ClearAllTransactions()
      modifies this`transactions, this`tracked
      ensures fault.None? ==> transactions == [] && tracked == old(tracked)
      ensures fault.Some? ==> transactions == old(transactions) && tracked == old(tracked) + [Failed("clearAllTransactions()", map[])]
    {
      if fault.Some? {
        tracked := tracked + [Failed("clearAllTransactions()", map[])];
        return;
      }
      transactions := [];
    }

    // Rate operations

    method SaveRate(rate: Rate)
      modifies this`rates
      ensures rates == old(rates) + [rate]
    {
      rates := rates + [rate];
    }

    method FetchRates() returns (r: seq<Rate>)
      modifies this`tracked
      ensures fault.None? ==> tracked == old(tracked) && multiset(r) == multiset(rates) && SortedDesc(r, RateDate)
      ensures fault.None? ==> r == SortDesc(rates, RateDate)
      ensures fault.Some? ==> r == [] && tracked == old(tracked) + [Failed("fetchRates()", map[])]
    {
      if fault.Some? {
        tracked := tracked + [Failed("fetchRates()", map[])];
        return [];
      }
      r := SortDesc(rates, RateDate);
    }

    /** `fetchLatestRate`: the newest-first fetch limited to one row. */
    method FetchLatestRate() returns (r: Option<Rate>)
      modifies this`tracked
      ensures fault.None? ==> tracked == old(tracked) && r == LatestRate(rates)
      ensures fault.Some? ==> r == None && tracked == old(tracked) + [Failed("fetchLatestRate()", map[])]
    {
      if fault.Some? {
        tracked := tracked + [Failed("fetchLatestRate()", map[])];
        return None;
      }
      var first := Page(SortDesc(rates, RateDate), 0, 1);
      r := if first == [] then None else Some(first[0]);
    }

    /** `deleteRate(withId:)`: delete every rate row with this id, one at a time. */
    method DeleteRate(id: nat)
      modifies this`rates, this`tracked
      ensures fault.None? ==> rates == RemoveKey(old(rates), RateId, id) && tracked == old(tracked)
      ensures fault.Some? ==> rates == old(rates)
      ensures fault.Some? ==> tracked == old(tracked) + [Failed("deleteRate(withId:)", map["rate_id" := NatToString(id)])]
    {
      if fault.Some? {
        tracked := tracked + [Failed("deleteRate(withId:)", map["rate_id" := NatToString(id)])];
        return;
      }
      rates := DeleteEach(rates, RateId, id);
    }

    method ClearAllRates()
      modifies this`rates, this`tracked
      ensures fault.None? ==> rates == [] && tracked == old(tracked)
      ensures fault.Some? ==> rates == old(rates) && tracked == old(tracked) + [Failed("clearAllRates()", map[])]
    {
      if fault.Some? {
        tracked := tracked + [Failed("clearAllRates()", map[])];
        return;
      }
      rates := [];
    }

    // Current balance operations

    /** `saveCurrentBalance`, as written: clear, then insert the new row unconditionally. */
    method SaveCurrentBalance(b: CurrentBalance)
      modifies this`balances, this`tracked
      ensures balances == BalanceRowsAfterSave(old(balances), fault, b)
      ensures fault.None? ==> tracked == old(tracked)
      ensures fault.Some? ==> tracked == old(tracked) + [Failed("clearCurrentBalance()", map[])]
    {
      ClearCurrentBalance();
      balances := balances + [b];
    }

    /** The intended `saveCurrentBalance`: the new row replaces the old one only once the clear succeeded. */
    method SaveCurrentBalanceChecked(b: CurrentBalance)
      modifies this`balances, this`tracked
      ensures balances == CheckedBalanceRowsAfterSave(old(balances), fault, b)
      ensures old(Valid()) ==> Valid()
      ensures fault.None? ==> tracked == old(tracked)
      ensures fault.Some? ==> tracked == old(tracked) + [Failed("clearCurrentBalance()", map[])]
    {
      ClearCurrentBalance();
      if fault.None? {
        balances := balances + [b];
      }
    }

    method GetCurrentBalance() returns (r: Option<CurrentBalance>)
      modifies this`tracked
      ensures fault.None? ==> tracked == old(tracked) && r == CurrentRow(balances)
      ensures fault.Some? ==> r == None && tracked == old(tracked) + [Failed("getCurrentBalance()", map[])]
    {
      if fault.Some? {
        tracked := tracked + [Failed("getCurrentBalance()", map[])];
        return None;
      }
      r := CurrentRow(balances);
    }

    /** `updateCurrentBalance(by:)`: the balance moves by exactly `amount`. */
    method UpdateCurrentBalance(amount: real)
      modifies this`balances, this`tracked, this`nextId
      ensures fault.None? ==> balances == BalanceAfterUpdate(old(balances), amount, clock, old(nextId)) && tracked == old(tracked)
      ensures fault.None? ==> BalanceValue(balances) == BalanceValue(old(balances)) + amount
      ensures fault.None? ==> nextId == if old(balances) == [] then old(nextId) + 1 else old(nextId)
      ensures old(Valid()) ==> Valid()
      ensures fault.Some? ==> balances == old(balances) && nextId == old(nextId)
      ensures fault.Some? ==> tracked == old(tracked) + [Failed("updateCurrentBalance(by:)", map["amount" := show(amount)])]
      ensures tracked == old(tracked) + Failures("updateCurrentBalance(by:)", map["amount" := show(amount)])
    {
      if fault.Some? {
        tracked := tracked + [Failed("updateCurrentBalance(by:)", map["amount" := show(amount)])];
        return;
      }
      if balances != [] {
        var row := balances[0];
        balances := balances[0 := row.(balance := row.balance + amount, lastUpdated := clock)];
      } else {
        balances := [CurrentBalance(nextId, amount, clock)];
        nextId := nextId + 1;
      }
    }

    method ClearCurrentBalance()
      modifies this`balances, this`tracked
      ensures fault.None? ==> balances == [] && tracked == old(tracked)
      ensures fault.Some? ==> balances == old(balances) && tracked == old(tracked) + [Failed("clearCurrentBalance()", map[])]
    {
      if fault.Some? {
        tracked := tracked + [Failed("clearCurrentBalance()", map[])];
        return;
      }
      balances := [];
    }
  }
}
