/** AddTransactionScreenModel: saving an expense charges the balance and then records it. */
module AddTransaction {
  import opened Text
  import opened AnalyticsEvents
  import opened CoreData
  import opened MainScreen

  class AddTransactionScreenModel {
    const mainScreenModel: MainScreenModel

    constructor (mainScreenModel: MainScreenModel)
      ensures this.mainScreenModel == mainScreenModel
    {
      this.mainScreenModel := mainScreenModel;
    }

    /**
     * `saveTransaction`: deduct the amount, then add the transaction. The
     * store's events show the order: the balance update's failure comes
     * before those of the add.
     */
    method SaveTransaction(transaction: Transaction)
      modifies mainScreenModel, mainScreenModel.store
      ensures var store := mainScreenModel.store;
        store.fault.None? ==> BalanceValue(store.balances) == BalanceValue(old(store.balances)) - transaction.amount
      ensures var store := mainScreenModel.store;
        store.fault.Some? ==> store.balances == old(store.balances)
      ensures var store := mainScreenModel.store;
        store.transactions == old(store.transactions) + [transaction]
      ensures var store := mainScreenModel.store;
        store.tracked == old(store.tracked)
          + store.Failures("updateCurrentBalance(by:)", map["amount" := store.show(-transaction.amount)])
          + store.Failures("getTotalTransactionsCount()", map[])
          + (if old(mainScreenModel.isLoading) then []
             else store.Failures("fetchTransactions_page", map["page" := NatToString(0)]) + store.Failures("getTotalTransactionsCount()", map[]))
    {
      var store := mainScreenModel.store;
      ghost var tracked := store.tracked;
      mainScreenModel.DeductFromBalance(transaction.amount);
      ghost var update := store.Failures("updateCurrentBalance(by:)", map["amount" := store.show(-transaction.amount)]);
      assert store.tracked == tracked + update;
      ghost var balances := store.balances;
      mainScreenModel.AddTransaction(transaction);
      assert store.balances == balances;
      assert store.Failures("updateCurrentBalance(by:)", map["amount" := store.show(-transaction.amount)]) == update;
    }
  }
}
