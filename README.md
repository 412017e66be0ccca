# Portfolio orchestrator (hikyuu) in Dafny

This project models hikyuu's `Portfolio`, the multi-strategy orchestrator of the
trading-system framework. A portfolio owns a master capital ledger (`m_tm`), a stock
selector (`m_se`) and a funds allocator (`m_af`). `readyForRun` clones every prototype
system of the selector's universe into a live system with an empty sub-ledger
(`TM_SUB{i}`) and makes a shadow ledger as a clone of the master. Each `runMoment`
tick then:

1. maps the selected prototypes to their live systems,
2. lets the allocator move cash between sub-ledgers and the shadow ledger,
3. retires every running system that holds no position and whose cash is at most the
   shadow ledger's `precision` parameter, sweeping nonzero leftover cash into the
   shadow ledger,
4. removes the retired systems from the running list and the running set,
5. admits every selected system with positive cash that is not running yet,
6. runs every running system in list order and appends each trade record it emits to
   the master ledger.

`run` prepares and then ticks over a sequence of dates. The reporting calls sum the
sub-ledgers' funds records or curves.

Files:

- `wrappers.dfy`: `Option` and `Outcome`.
- `sums.dfy`: sums over sequences in order, and over finite sets in no order.
- `ledgers.dfy`: the ledgers, reduced to what the portfolio reads and changes.
- `portfolio_spec.dfy`: the portfolio state as a value. Every operation is a pure
  function of it, and the portfolio's promises are lemmas about those functions.
- `portfolio.dfy`: the `Portfolio` class. Its fields are updated in place by loop
  methods. Each method is proved to leave exactly the state that the matching
  function of `PortfolioSpec` describes.

Sub-systems are integer handles. A prototype is a `Proto`. A live clone is a `Live`
index into `accounts`, the arena of sub-ledgers, so `accounts[i]` is the ledger named
`TM_SUB{i}`. The collaborators the portfolio calls but does not define are parameters:

- the allocator's `adjustFunds` is an `Allocator` function on the balances,
- `System::runMoment` is an `Executor`,
- the selector's choice on a date is a sequence of prototypes,
- a sub-ledger's `getFunds` and curves are functions of the live handle.

Money is `real`. The retirement test compares cash with the integer `precision`
parameter itself (`Portfolio.cpp:148`, `:186`), not with a 0.01-style amount. Only the
two `getFunds` overloads add the shadow ledger's cash; `getFundsCurve` and
`getProfitCurve` do not (`Portfolio.cpp:251-278`).

## Model

| member | source | states |
|---|---|---|
| PortfolioClass.Portfolio.constructor | hikyuu_cpp/hikyuu/trade_sys/portfolio/Portfolio.cpp:38-41 | a new portfolio holds the given ledger, selector and allocator, is not ready and has no run state |
| PortfolioSpec.Reset | hikyuu_cpp/hikyuu/trade_sys/portfolio/Portfolio.cpp:45-58 | reset keeps the invariant, clears the ready flag, and keeps the selector and the allocator |
| PortfolioSpec.ResetSpec | hikyuu_cpp/hikyuu/trade_sys/portfolio/Portfolio.cpp:45-58 | after reset the portfolio is not ready; the running list, running set and map are empty; present ledgers stay present; the invariant holds; reset is idempotent |
| PortfolioClass.Portfolio.Reset | hikyuu_cpp/hikyuu/trade_sys/portfolio/Portfolio.cpp:45-58 | the fields become the reset state of the old fields |
| PortfolioClass.Portfolio.Clone | hikyuu_cpp/hikyuu/trade_sys/portfolio/Portfolio.cpp:60-78 | the clone is a new object whose state equals the original's |
| PortfolioSpec.BuildMap | hikyuu_cpp/hikyuu/trade_sys/portfolio/Portfolio.cpp:115-118 | every prototype in the map maps to the index of a clone made for that very prototype |
| PortfolioSpec.BuildMapSpec | hikyuu_cpp/hikyuu/trade_sys/portfolio/Portfolio.cpp:113-118 | the map has one key per prototype of the universe; each key maps to a clone made for that prototype, and no later prototype in the universe is the same one |
| PortfolioSpec.BuildMapInjective | hikyuu_cpp/hikyuu/trade_sys/portfolio/Portfolio.cpp:115-118 | distinct prototypes map to distinct live systems |
| PortfolioSpec.ReadyForRun | hikyuu_cpp/hikyuu/trade_sys/portfolio/Portfolio.cpp:80-140 | preparation succeeds exactly when selector, ledger and allocator are all present, and the portfolio is ready exactly when it succeeds |
| PortfolioSpec.ReadyForRunSpec | hikyuu_cpp/hikyuu/trade_sys/portfolio/Portfolio.cpp:80-140 | preparation succeeds exactly when selector, ledger and allocator are all present; failure only clears the ready flag; success leaves an empty running state, one fresh empty sub-ledger per mapped prototype, distinct clones, a reset master ledger, a shadow ledger equal to it, and a ledger bound to every prototype |
| PortfolioClass.Portfolio.ReadyForRun | hikyuu_cpp/hikyuu/trade_sys/portfolio/Portfolio.cpp:80-140 | the result flag and new fields are those of the preparation function on the old fields; the invariant is kept |
| PortfolioSpec.Selected | hikyuu_cpp/hikyuu/trade_sys/portfolio/Portfolio.cpp:157-159 | one live system per selected prototype, in selection order, each a value of the map |
| PortfolioSpec.SelectedAreLive | hikyuu_cpp/hikyuu/trade_sys/portfolio/Portfolio.cpp:157-159 | on a ready portfolio every selected prototype maps to a live system that has a sub-ledger |
| PortfolioClass.Portfolio.SelectLive | hikyuu_cpp/hikyuu/trade_sys/portfolio/Portfolio.cpp:157-159 | returns the live system of each selected prototype, in selection order |
| PortfolioSpec.Allocated | hikyuu_cpp/hikyuu/trade_sys/portfolio/Portfolio.cpp:166-167 | the allocator's balances have one sub-ledger per live system |
| PortfolioSpec.Retires | hikyuu_cpp/hikyuu/trade_sys/portfolio/Portfolio.cpp:186 | a running system retires when it holds no position and its cash is at most the integer precision, compared directly |
| PortfolioSpec.Scan | hikyuu_cpp/hikyuu/trade_sys/portfolio/Portfolio.cpp:178-193 | the scan marks only running systems and leaves every sub-ledger of a non-running system unchanged |
| PortfolioSpec.ScanOne | hikyuu_cpp/hikyuu/trade_sys/portfolio/Portfolio.cpp:179-192 | one scan step changes at most the scanned system's sub-ledger and marks at most that system |
| PortfolioSpec.ScanRemoves | hikyuu_cpp/hikyuu/trade_sys/portfolio/Portfolio.cpp:178-193 | a system is marked if and only if it is running, holds no position and has cash at most the integer precision |
| PortfolioSpec.ScanSweeps | hikyuu_cpp/hikyuu/trade_sys/portfolio/Portfolio.cpp:185-190 | every marked system ends with zero cash; every other running system keeps its ledger |
| PortfolioSpec.ScanConserves | hikyuu_cpp/hikyuu/trade_sys/portfolio/Portfolio.cpp:186-190 | sub-ledger cash plus shadow cash is the same before and after the sweep |
| PortfolioSpec.ScanSpec | hikyuu_cpp/hikyuu/trade_sys/portfolio/Portfolio.cpp:178-193 | the three scan properties together: the marking rule in both directions, the sweep, and conservation |
| PortfolioClass.Portfolio.MarkIdle | hikyuu_cpp/hikyuu/trade_sys/portfolio/Portfolio.cpp:178-193 | returns the marked systems and leaves the balances that the scan function gives; nothing else changes |
| Ledgers.TotalCashUpdate | hikyuu_cpp/hikyuu/trade_sys/portfolio/Portfolio.cpp:187-189 | moving one sub-ledger's cash changes the total sub-ledger cash by exactly that amount |
| PortfolioSpec.Remove | hikyuu_cpp/hikyuu/trade_sys/portfolio/Portfolio.cpp:197 | list removal keeps exactly the elements different from the removed one |
| PortfolioSpec.RemoveEach | hikyuu_cpp/hikyuu/trade_sys/portfolio/Portfolio.cpp:196-199 | removing the marked systems one by one keeps only systems of the old list |
| PortfolioSpec.RemoveEachIsWithout | hikyuu_cpp/hikyuu/trade_sys/portfolio/Portfolio.cpp:196-199 | removing the marked systems one by one leaves the list without all of them, in the old order |
| PortfolioSpec.WithoutIsSurvivors | hikyuu_cpp/hikyuu/trade_sys/portfolio/Portfolio.cpp:196-199 | when the marked systems are exactly the retiring ones, what is left is the non-retiring systems in running-list order |
| PortfolioSpec.SurvivorsNoDup | hikyuu_cpp/hikyuu/trade_sys/portfolio/Portfolio.cpp:196-199 | the survivors of a duplicate-free running list have no duplicates |
| PortfolioClass.Portfolio.RemoveMarked | hikyuu_cpp/hikyuu/trade_sys/portfolio/Portfolio.cpp:196-199 | the running list loses each marked system in turn and the running set loses all of them; nothing else changes |
| PortfolioSpec.Retire | hikyuu_cpp/hikyuu/trade_sys/portfolio/Portfolio.cpp:178-199 | retirement keeps the number of sub-ledgers and only keeps systems that were running |
| PortfolioSpec.RetireSpec | hikyuu_cpp/hikyuu/trade_sys/portfolio/Portfolio.cpp:178-199 | after retirement the running list is exactly the non-retiring systems in their old order; list and set agree with no duplicates; retired systems hold no cash; cash is conserved |
| PortfolioClass.Portfolio.RetireIdle | hikyuu_cpp/hikyuu/trade_sys/portfolio/Portfolio.cpp:178-199 | the running list, running set, sub-ledgers and shadow cash become those the retirement function gives |
| PortfolioSpec.Admit | hikyuu_cpp/hikyuu/trade_sys/portfolio/Portfolio.cpp:201-208 | admission only adds selected systems to the running list |
| PortfolioSpec.Fresh | hikyuu_cpp/hikyuu/trade_sys/portfolio/Portfolio.cpp:202-207 | independent front-to-back definition of the admitted systems: selected, positive cash, not excluded, no duplicates, in selection order |
| PortfolioSpec.FreshCovers | hikyuu_cpp/hikyuu/trade_sys/portfolio/Portfolio.cpp:202-207 | every selected system with positive cash is excluded or admitted |
| PortfolioSpec.FreshSnoc | hikyuu_cpp/hikyuu/trade_sys/portfolio/Portfolio.cpp:202-207 | Fresh extended by one more selected system appends it exactly when it has cash and is not yet excluded or admitted |
| PortfolioSpec.AdmitFresh | hikyuu_cpp/hikyuu/trade_sys/portfolio/Portfolio.cpp:201-208 | the admission loop appends exactly Fresh to the running list, and the set stays equal to the list's elements |
| PortfolioSpec.AdmitSpec | hikyuu_cpp/hikyuu/trade_sys/portfolio/Portfolio.cpp:201-208 | the old running list stays in front, followed by exactly Fresh: the selected systems with positive cash that were not running, in selection order; every selected system with positive cash ends up running; list and set agree with no duplicates |
| PortfolioClass.Portfolio.AdmitSelected | hikyuu_cpp/hikyuu/trade_sys/portfolio/Portfolio.cpp:201-208 | the running list and running set become those of the admission function |
| PortfolioSpec.Execute | hikyuu_cpp/hikyuu/trade_sys/portfolio/Portfolio.cpp:210-216 | execution keeps the number of sub-ledgers and leaves non-running systems' sub-ledgers unchanged |
| PortfolioSpec.ExecuteOne | hikyuu_cpp/hikyuu/trade_sys/portfolio/Portfolio.cpp:212-215 | one execution step changes only the executed system's sub-ledger |
| PortfolioSpec.ExecuteOrder | hikyuu_cpp/hikyuu/trade_sys/portfolio/Portfolio.cpp:210-216 | the records appended are exactly the non-null records of the running systems in running-list order, each computed on the system's own ledger, and each running system's ledger is what its own step left |
| PortfolioClass.Portfolio.ExecuteRunning | hikyuu_cpp/hikyuu/trade_sys/portfolio/Portfolio.cpp:210-216 | the sub-ledgers and the master ledger's records become those of the execution function |
| PortfolioSpec.Running | hikyuu_cpp/hikyuu/trade_sys/portfolio/Portfolio.cpp:176-208 | after retirement and admission the running list has no duplicates, agrees with the running set, and holds only live systems of the map |
| PortfolioSpec.RunningSpec | hikyuu_cpp/hikyuu/trade_sys/portfolio/Portfolio.cpp:176-208 | the running list is the survivors of retirement in old order followed by exactly Fresh of the selection: the newly admitted selected systems with positive cash, in selection order; every selected system with positive cash is running; cash is conserved across retirement |
| PortfolioSpec.Tick | hikyuu_cpp/hikyuu/trade_sys/portfolio/Portfolio.cpp:142-217 | a tick keeps the invariant and leaves the selector, the map and the ready flag unchanged; before the shadow ledger's inception date it changes nothing |
| PortfolioSpec.TickRecords | hikyuu_cpp/hikyuu/trade_sys/portfolio/Portfolio.cpp:210-216 | on a tick at or after inception the master ledger's records grow by exactly the emitted records, in running-list order |
| PortfolioClass.Portfolio.RunMoment | hikyuu_cpp/hikyuu/trade_sys/portfolio/Portfolio.cpp:142-217 | a portfolio that is not ready fails and is unchanged; a ready one passes and its new state is the tick function of the old state; the invariant is kept |
| PortfolioSpec.RunTicks | hikyuu_cpp/hikyuu/trade_sys/portfolio/Portfolio.cpp:225-228 | ticking over any dates keeps the invariant, the ready flag, the selector and the map |
| PortfolioSpec.Run | hikyuu_cpp/hikyuu/trade_sys/portfolio/Portfolio.cpp:219-229 | a run passes exactly when selector, ledger and allocator are present; if it fails, only the ready flag is cleared; if it passes, the portfolio is ready with one map entry per prototype |
| PortfolioClass.Portfolio.Run | hikyuu_cpp/hikyuu/trade_sys/portfolio/Portfolio.cpp:219-229 | the outcome and the new fields are those of the run function on the old fields |
| PortfolioSpec.FundsSeqSumSnoc | hikyuu_cpp/hikyuu/trade_sys/portfolio/Portfolio.cpp:233-236 | adding one more system's funds record to the running total adds it field by field |
| PortfolioSpec.RunningFundsOrderFree | hikyuu_cpp/hikyuu/trade_sys/portfolio/Portfolio.cpp:231-239 | on a valid state the sum over the running list equals the order-free sum over the running set |
| PortfolioClass.Portfolio.GetFunds | hikyuu_cpp/hikyuu/trade_sys/portfolio/Portfolio.cpp:231-239 | the result is the sum of the running systems' funds records plus the shadow ledger's current cash, added to the cash field only |
| Sums.SetSumRemove | hikyuu_cpp/hikyuu/trade_sys/portfolio/Portfolio.cpp:243-246 | a sum over the map may take its entries in any order |
| PortfolioSpec.FundsSetSumAdd | hikyuu_cpp/hikyuu/trade_sys/portfolio/Portfolio.cpp:243-246 | adding one more mapped system's funds record to the order-free total adds it field by field |
| PortfolioClass.Portfolio.GetFundsAt | hikyuu_cpp/hikyuu/trade_sys/portfolio/Portfolio.cpp:241-249 | the result is the sum, over every mapped prototype, of its live system's funds at the date, plus the shadow ledger's cash at that date, added to the cash field only |
| PortfolioClass.Portfolio.AddInto | hikyuu_cpp/hikyuu/trade_sys/portfolio/Portfolio.cpp:256-259 | each curve value is added to the result at the same date index |
| PortfolioClass.Portfolio.SumCurves | hikyuu_cpp/hikyuu/trade_sys/portfolio/Portfolio.cpp:251-261 | one value per date; each is the sum over every mapped prototype of its live system's curve at that date |
| PortfolioClass.Portfolio.GetFundsCurve | hikyuu_cpp/hikyuu/trade_sys/portfolio/Portfolio.cpp:251-261 | one value per date, the pointwise sum of the mapped sub-ledgers' funds curves; the shadow ledger is not included |
| PortfolioClass.Portfolio.GetProfitCurve | hikyuu_cpp/hikyuu/trade_sys/portfolio/Portfolio.cpp:268-278 | one value per date, the pointwise sum of the mapped sub-ledgers' profit curves; the shadow ledger is not included |

## Left out

- The name-only constructors (lines 30-36) build a portfolio with no collaborators: the modelled constructor with `None, None, false`. Their name is not modelled.
- `operator<<` (lines 15-28), the `trace` parameter and its logging (lines 151-174), and the warnings in `readyForRun`: output only.
- `m_params`, `m_name` and `m_query`, copied by `clone`: they do not affect the modelled state.
- Selector and allocator `reset`, `clone`, `setTM`, `setShadowTM` and `setQuery` (lines 54-57, 69-72, 103-107): their internals are not part of this model. The allocator is a pure function of the balances it is given.
- Clone: live systems are shared pointers in the source, so a clone shares their sub-ledgers with the original. The model copies the sub-ledgers as values and does not capture that aliasing.
- ReadyForRun: the readiness of each clone and prototype, and the K-data binding (lines 129-135), are not modelled. A failure there only logs a warning and does not change the portfolio's state.
- ReadyForRun: `crtTM` and the cost function of the sub-ledgers are not modelled. Each fresh sub-ledger is an account with no cash and no position.
- RunMoment: `m_sys_map[pro_sys]` would insert a null entry for a prototype outside the universe. The model requires the selection to come from the universe, and `Run` requires the same of its selector.
- TradeManager arithmetic is not part of this model. `checkout` and `checkin` are exact transfers, `reset` restores the initial cash and drops the records, and `getFunds`, `cash(datetime)` and the curves are parameters.
- The `getFundsCurve()` and `getProfitCurve()` overloads without dates (lines 262-266 and 279-283) read the clock (`Datetime::now`). The dated overloads are modelled.
- ExecuteRunning: the emitted records are collected in running-list order and appended to the master ledger after the loop, not one `addTradeRecord` call at a time. The final ledger is the same, but the intermediate states are not modelled.
- Run: the trading calendar lookup (line 225) is not modelled. The dates are a parameter.
- The `ktype` parameters are not modelled. Each reporting oracle stands for one ktype.
- Funds records are reduced to four fields: cash, market value, base cash and base asset.
- Floating point: money is `real`, so rounding in sums is not modelled.
- `HKU_CHECK` throws an exception; the model returns a `Fail` outcome instead.
- `hikyuu_cpp/hikyuu/indicator/imp/IEma.h` is not part of this model.
