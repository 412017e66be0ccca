/**
 * The capital-tracking collaborators (TradeManager and its records), reduced to what
 * the portfolio reads and changes. Their own arithmetic is not part of this model.
 */
module Ledgers {
  import opened Wrappers
  import opened Sums

  /** A trade record emitted by a sub-system; the portfolio only copies it. */
  datatype TradeRecord = TradeRecord(date: int, stock: nat, number: int, price: real)

  /**
   * A capital ledger (the master ledger or its shadow clone): inception date, the
   * integer "precision" parameter, the initial and current cash, and the trade records.
   */
  datatype Ledger = Ledger(initDate: int, precision: int, initCash: real, cash: real,
                           trades: seq<TradeRecord>)

  /** TradeManager::reset, abstracted: back to the initial cash with no records. */
  function ResetLedger(l: Ledger): Ledger
  {
    l.(cash := l.initCash, trades := [])
  }

  /** Reset of an optional ledger; an unset ledger stays unset. */
  function ResetOpt(o: Option<Ledger>): Option<Ledger>
  {
    if o.Some? then Some(ResetLedger(o.value)) else None
  }

  /** A live sub-system's own ledger: its cash and the position number it holds in its stock. */
  datatype Account = Account(cash: real, position: int)

  /** The balances the allocator may move cash between: every sub-ledger and the shadow ledger's cash. */
  datatype Balances = Balances(accounts: seq<Account>, shadowCash: real)

  /** What one execution step of a sub-system yields: maybe a trade record, and its ledger afterwards. */
  datatype Step = Step(record: Option<TradeRecord>, account: Account)

  /** A funds record as the sub-ledgers report it; addition is field by field. */
  datatype Funds = Funds(cash: real, marketValue: real, baseCash: real, baseAsset: real)

  /** Cash held by all sub-ledgers together. */
  function TotalCash(accounts: seq<Account>): real
  {
    SeqSum(accounts, (a: Account) => a.cash)
  }

  /** Replacing one sub-ledger changes the total cash by exactly the difference of the two balances. */
  lemma {:induction false} TotalCashUpdate(accounts: seq<Account>, i: nat, a: Account)
    requires i < |accounts|
    ensures TotalCash(accounts[i := a]) == TotalCash(accounts) - accounts[i].cash + a.cash
  {
    var n := |accounts| - 1;
    var updated := accounts[i := a];
    assert updated[..n] == if i < n then accounts[..n][i := a] else accounts[..n];
    if i < n {
      TotalCashUpdate(accounts[..n], i, a);
    }
  }
}
