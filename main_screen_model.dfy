/**
 * MainScreenModel: the main screen's paged view of the stored
 * transactions, newest first, twenty at a time, with the balance top-up
 * and deduction it forwards to the store.
 */
module MainScreen {
  import opened Wrappers
  import opened Text
  import opened Sequences
  import opened AnalyticsEvents
  import opened CoreData
  import opened Pagination
  import opened TransactionSections

  const PageSize: nat := 20

  /** The transaction shown at (sectionIndex, itemIndex), when both indices are in range. */
  function Selected(sections: seq<TransactionSection>, sectionIndex: nat, itemIndex: nat): Option<Transaction> {
    if sectionIndex < |sections| && itemIndex < |sections[sectionIndex].transactions|
    then Some(sections[sectionIndex].transactions[itemIndex])
    else None
  }

  /**
   * After loading pages 0 to currentPage of an unchanged list, the loaded
   * list is its newest (currentPage+1)*20 records, and more pages remain
   * exactly when the list is longer than that.
   */
  lemma {:induction false} LoadedPagesArePrefix(all: seq<Transaction>, loaded: seq<Transaction>, currentPage: nat)
    requires loaded == Pages(all, PageSize, currentPage + 1)
    ensures loaded == all[..Min((currentPage + 1) * PageSize, |all|)]
    ensures |loaded| < |all| <==> (currentPage + 1) * PageSize < |all|
  {
    PagesArePrefix(all, PageSize, currentPage + 1);
  }

  lemma FirstPage(all: seq<Transaction>)
    ensures Pages(all, PageSize, 1) == Page(all, 0, PageSize)
  {
    assert Pages(all, PageSize, 1) == [] + Page(all, 0 * PageSize, PageSize);
  }

  /** Appending page `page` to pages 0 to page-1 gives pages 0 to page. */
  lemma NextPage(all: seq<Transaction>, loaded: seq<Transaction>, page: nat)
    ensures loaded == Pages(all, PageSize, page) ==>
      loaded + Page(all, page * PageSize, PageSize) == Pages(all, PageSize, page + 1)
  {
  }

  class MainScreenModel {
    const store: CoreDataManager
    /** `Calendar.current.startOfDay(for:)` on timestamps. */
    const startOfDay: int -> int
    var currentPage: nat
    var loadedTransactions: seq<Transaction>
    var totalItems: nat
    var isLoading: bool

    /** `hasMorePages` */
    predicate HasMorePages()
      reads this
    {
      |loadedTransactions| < totalItems
    }

    /** `getTransactionSections` */
    function Sections(): seq<TransactionSection>
      reads this
    {
      GroupTransactions(loadedTransactions, startOfDay)
    }

    /**
     * While the store neither throws nor changes, the loaded list is pages 0
     * to currentPage of the store's newest-first list.
     */
    ghost predicate InStep()
      reads this, store
    {
      store.fault.None? && loadedTransactions == Pages(SortDesc(store.transactions, TransactionDate), PageSize, currentPage + 1)
    }

    constructor (store: CoreDataManager, startOfDay: int -> int)
      modifies store`tracked
      ensures this.store == store && this.startOfDay == startOfDay
      ensures currentPage == 0 && loadedTransactions == [] && !isLoading
      ensures totalItems == store.TotalCount()
      ensures store.tracked == old(store.tracked) + store.Failures("getTotalTransactionsCount()", map[])
    {
      var count := store.GetTotalTransactionsCount();
      this.store := store;
      this.startOfDay := startOfDay;
      currentPage := 0;
      loadedTransactions := [];
      totalItems := count;
      isLoading := false;
    }

    /** `loadFirstPage`: start over from page 0 and re-read the total. */
    method LoadFirstPage()
      modifies this, store`tracked
      ensures old(isLoading) ==> unchanged(this) && store.tracked == old(store.tracked)
      ensures !old(isLoading) ==> !isLoading && currentPage == 0 && loadedTransactions == store.FetchedPage(0, PageSize)
      ensures !old(isLoading) ==> totalItems == store.TotalCount()
      ensures !old(isLoading) ==>
        store.tracked == old(store.tracked)
          + store.Failures("fetchTransactions_page", map["page" := NatToString(0)]) + store.Failures("getTotalTransactionsCount()", map[])
      ensures !old(isLoading) && store.fault.None? ==> InStep()
    {
      if isLoading {
        return;
      }
      isLoading := true;
      Reload();
      isLoading := false;
    }

    /** The body `loadFirstPage` and `refreshTransactions` share, between setting and clearing `isLoading`. */
    method Reload()
      modifies this`currentPage, this`loadedTransactions, this`totalItems, store`tracked
      ensures currentPage == 0 && loadedTransactions == store.FetchedPage(0, PageSize) && totalItems == store.TotalCount()
      ensures store.tracked == old(store.tracked)
        + store.Failures("fetchTransactions_page", map["page" := NatToString(0)]) + store.Failures("getTotalTransactionsCount()", map[])
      ensures store.fault.None? ==> InStep()
    {
      currentPage := 0;
      loadedTransactions := store.FetchTransactionsPage(currentPage, PageSize);
      totalItems := store.GetTotalTransactionsCount();
      FirstPage(SortDesc(store.transactions, TransactionDate));
    }

    /** `loadNextPage`: append the next page, unless loading or nothing is left. */
    method LoadNextPage() returns (loaded: bool)
      modifies this, store`tracked
      ensures loaded <==> !old(isLoading) && old(HasMorePages())
      ensures !loaded ==> unchanged(this) && store.tracked == old(store.tracked)
      ensures loaded ==> currentPage == old(currentPage) + 1 && totalItems == old(totalItems) && !isLoading
      ensures loaded ==> loadedTransactions == old(loadedTransactions) + store.FetchedPage(currentPage, PageSize)
      ensures loaded ==> store.tracked == old(store.tracked) + store.Failures("fetchTransactions_page", map["page" := NatToString(currentPage)])
      ensures old(InStep()) ==> InStep()
    {
      if isLoading {
        return false;
      }
      if !HasMorePages() {
        return false;
      }
      isLoading := true;
      currentPage := currentPage + 1;
      var newTransactions := store.FetchTransactionsPage(currentPage, PageSize);
      NextPage(SortDesc(store.transactions, TransactionDate), loadedTransactions, currentPage);
      loadedTransactions := loadedTransactions + newTransactions;
      isLoading := false;
      return true;
    }

    /** `refreshTransactions`: the same steps as `loadFirstPage`. */
    method RefreshTransactions()
      modifies this, store`tracked
      ensures old(isLoading) ==> unchanged(this) && store.tracked == old(store.tracked)
      ensures !old(isLoading) ==> !isLoading && currentPage == 0 && loadedTransactions == store.FetchedPage(0, PageSize)
      ensures !old(isLoading) ==> totalItems == store.TotalCount()
      ensures !old(isLoading) ==>
        store.tracked == old(store.tracked)
          + store.Failures("fetchTransactions_page", map["page" := NatToString(0)]) + store.Failures("getTotalTransactionsCount()", map[])
      ensures !old(isLoading) && store.fault.None? ==> InStep()
    {
      LoadFirstPage();
    }

    /** `getPaginationInfo` */
    method GetPaginationInfo() returns (info: PaginationInfo)
      ensures info == PaginationInfo(currentPage, PageSize, totalItems, HasMorePages())
      ensures info.IsFirstPage() <==> currentPage == 0
      ensures info.IsLastPage() <==> |loadedTransactions| >= totalItems
      ensures (info.TotalPages() - 1) * PageSize < totalItems <= info.TotalPages() * PageSize
    {
      var hasMore := HasMorePages();
      info := PaginationInfo(currentPage, PageSize, totalItems, hasMore);
    }

    /** `addTransaction`: store it, re-read the total, then refresh. */
    method AddTransaction(transaction: Transaction)
      modifies this, store`transactions, store`tracked
      ensures store.transactions == old(store.transactions) + [transaction]
      ensures totalItems == store.TotalCount()
      ensures !old(isLoading) ==> !isLoading && currentPage == 0 && loadedTransactions == store.FetchedPage(0, PageSize)
      ensures old(isLoading) ==> isLoading && currentPage == old(currentPage) && loadedTransactions == old(loadedTransactions)
      ensures store.tracked == old(store.tracked) + store.Failures("getTotalTransactionsCount()", map[])
        + (if old(isLoading) then []
           else store.Failures("fetchTransactions_page", map["page" := NatToString(0)]) + store.Failures("getTotalTransactionsCount()", map[]))
    {
      store.SaveTransaction(transaction);
      totalItems := store.GetTotalTransactionsCount();
      RefreshTransactions();
    }

    /**
     * `removeTransaction`: delete the transaction shown at the given place,
     * then re-read the total and refresh; out of range, nothing happens.
     */
    method RemoveTransaction(sectionIndex: nat, itemIndex: nat)
      modifies this, store`transactions, store`tracked
      ensures Selected(old(Sections()), sectionIndex, itemIndex).None? ==> unchanged(this) && unchanged(store)
      ensures Selected(old(Sections()), sectionIndex, itemIndex).Some? ==>
        var removed := Selected(old(Sections()), sectionIndex, itemIndex).value;
        && removed in old(loadedTransactions)
        && store.transactions == (if store.fault.None? then RemoveKey(old(store.transactions), TransactionId, removed.id) else old(store.transactions))
        && totalItems == store.TotalCount()
        && (!old(isLoading) ==> !isLoading && currentPage == 0 && loadedTransactions == store.FetchedPage(0, PageSize))
    {
      var sections := Sections();
      if sectionIndex >= |sections| {
        return;
      }
      var section := sections[sectionIndex];
      if itemIndex >= |section.transactions| {
        return;
      }
      var transaction := section.transactions[itemIndex];
      assert transaction in section.transactions;
      store.DeleteTransaction(transaction.id);
      totalItems := store.GetTotalTransactionsCount();
      RefreshTransactions();
    }

    /** `topUpBalance`: the balance rises by `amount`. */
    method TopUpBalance(amount: real)
      modifies store`balances, store`tracked, store`nextId
      ensures store.fault.None? ==> BalanceValue(store.balances) == BalanceValue(old(store.balances)) + amount
      ensures store.fault.Some? ==> store.balances == old(store.balances)
      ensures store.tracked == old(store.tracked) + store.Failures("updateCurrentBalance(by:)", map["amount" := store.show(amount)])
    {
      store.UpdateCurrentBalance(amount);
    }

    /** `deductFromBalance`: the balance falls by `amount`. */
    method DeductFromBalance(amount: real)
      modifies store`balances, store`tracked, store`nextId
      ensures store.fault.None? ==> BalanceValue(store.balances) == BalanceValue(old(store.balances)) - amount
      ensures store.fault.Some? ==> store.balances == old(store.balances)
      ensures store.tracked == old(store.tracked) + store.Failures("updateCurrentBalance(by:)", map["amount" := store.show(-amount)])
    {
      store.UpdateCurrentBalance(-amount);
    }
  }
}
