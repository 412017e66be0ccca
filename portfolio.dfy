/**
 * The Portfolio orchestrator as a class: its fields are updated in place by loop
 * methods, each proved to produce the state the matching function of PortfolioSpec
 * describes.
 */
module PortfolioClass {
  import opened Wrappers
  import opened Sums
  import opened Ledgers
  import opened PortfolioSpec

  class Portfolio {
    var se: Option<Selector>          // m_se
    var tm: Option<Ledger>            // m_tm, the master ledger
    var hasAF: bool                   // m_af is set
    var shadow: Option<Ledger>        // m_shadow_tm
    var isReady: bool                 // m_is_ready
    var runningList: seq<Live>        // m_running_sys_list
    var runningSet: set<Live>         // m_running_sys_set
    var sysMap: map<Proto, Live>      // m_sys_map
    var accounts: seq<Account>        // the live systems' sub-ledgers, by handle

    /** The fields as a value. */
    ghost function Model(): PortfolioState
      reads this
    {
      PortfolioState(se, tm, hasAF, shadow, isReady, runningList, runningSet, sysMap, accounts)
    }

    ghost predicate Valid()
      reads this
    {
      PortfolioSpec.Valid(Model())
    }

    /** Portfolio(tm, se, af); the other constructors pass no collaborators. */
    constructor (tm: Option<Ledger>, se: Option<Selector>, hasAF: bool)
      ensures Valid()
      ensures Model() == PortfolioState(se, tm, hasAF, None, false, [], {}, map[], [])
    {
      this.se := se;
      this.tm := tm;
      this.hasAF := hasAF;
      shadow := None;
      isReady := false;
      runningList := [];
      runningSet := {};
      sysMap := map[];
      accounts := [];
    }

    /** Portfolio::reset. The selector's and allocator's own reset are not part of this model. */
    method Reset()
      modifies this
      ensures Valid()
      ensures Model() == PortfolioSpec.Reset(old(Model()))
    {
      isReady := false;
      runningSet := {};
      runningList := [];
      sysMap := map[];
      accounts := [];
      if tm.Some? {
        tm := Some(ResetLedger(tm.value));
      }
      if shadow.Some? {
        shadow := Some(ResetLedger(shadow.value));
      }
      ResetSpec(old(Model()));
    }

    /**
     * Portfolio::clone: a new portfolio with the same fields; collaborators are values
     * here, so their clones are copies.
     */
    method Clone() returns (p: Portfolio)
      ensures fresh(p)
      ensures p.Model() == Model()
    {
      p := new Portfolio(tm, se, hasAF);
      p.runningSet := runningSet;
      p.runningList := runningList;
      p.sysMap := sysMap;
      p.isReady := isReady;
      p.shadow := shadow;
      p.accounts := accounts;
    }

    /** Portfolio::readyForRun. */
    method ReadyForRun() returns (ok: bool)
      requires Valid()
      modifies this
      ensures Valid()
      ensures (ok, Model()) == PortfolioSpec.ReadyForRun(old(Model()))
    {
      ReadyForRunSpec(Model());
      if se.None? {
        isReady := false;
        return false;
      }
      if tm.None? {
        isReady := false;
        return false;
      }
      if !hasAF {
        isReady := false;
        return false;
      }
      Reset();
      shadow := tm;  // the shadow ledger is a clone of the master ledger
      var universe := se.value.universe;
      var withLedger := se.value.withLedger;
      var m: map<Proto, Live> := map[];
      var accs: seq<Account> := [];
      for i := 0 to |universe|
        modifies {}
        invariant m == BuildMap(universe[..i])
        invariant accs == SubLedgers(i)
        invariant withLedger == old(se).value.withLedger + Elems(universe[..i])
      {
        var pro := universe[i];
        assert universe[..i + 1] == universe[..i] + [pro];
        m := m[pro := i];                           // a fresh clone, handle i
        if pro !in withLedger {
          withLedger := withLedger + {pro};         // give the prototype a ledger of its own
        }
        accs := accs + [Account(0.0, 0)];           // the clone's empty sub-ledger TM_SUB{i}
      }
      assert universe[..|universe|] == universe;
      sysMap := m;
      accounts := accs;
      se := Some(Selector(universe, withLedger));
      isReady := true;
      ok := true;
    }

    /** Portfolio::runMoment. */
    method RunMoment(date: int, selected: seq<Proto>, adjust: Allocator, exec: Executor)
      returns (r: Outcome<PortfolioError>)
      requires Valid() && PreservesShape(adjust)
      requires isReady ==> se.Some? && forall p :: p in selected ==> p in se.value.universe
      modifies this
      ensures Valid()
      ensures !old(isReady) ==> r == Fail(NotReady) && Model() == old(Model())
      ensures old(isReady) ==> r == Pass && Model() == Tick(old(Model()), date, selected, adjust, exec)
    {
      if !isReady {
        return Fail(NotReady);
      }
      r := Pass;
      if date < shadow.value.initDate {
        return;
      }
      ghost var s0 := Model();
      var precision := shadow.value.precision;

      // 1. the live systems of the selected prototypes
      var cur := SelectLive(selected);
      SelectedAreLive(s0, selected);

      // 2. the allocator adjusts the balances
      var b := adjust(date, cur, runningList, Balances(accounts, shadow.value.cash));
      assert b == Allocated(s0, date, selected, adjust);
      accounts := b.accounts;
      shadow := Some(shadow.value.(cash := b.shadowCash));

      // 3 and 4. retire the idle running systems
      RetireIdle(precision);

      // 5. admit the selected systems that have cash and are not running
      AdmitSelected(cur);
      assert RunState(runningList, runningSet, Balances(accounts, shadow.value.cash)) == Running(s0, date, selected, adjust);

      // 6. run every running system in list order, harvesting its trade record
      ExecuteRunning(date, exec);
    }

    /** Step 1 of runMoment: the live system of each selected prototype, in selection order. */
    method SelectLive(selected: seq<Proto>) returns (cur: seq<Live>)
      requires forall p :: p in selected ==> p in sysMap
      ensures cur == Selected(selected, sysMap)
    {
      cur := [];
      for k := 0 to |selected|
        invariant |cur| == k
        invariant forall j :: 0 <= j < k ==> cur[j] == sysMap[selected[j]]
      {
        cur := cur + [sysMap[selected[k]]];
      }
    }

    /**
     * Steps 3 and 4 of runMoment: mark the running systems that hold no position and
     * at most `precision` cash, sweeping nonzero cash into the shadow ledger, then remove
     * the marked systems from the running list and the running set.
     */
    method RetireIdle(precision: int)
      requires shadow.Some?
      requires Bounded(runningList, |accounts|)
      modifies this
      ensures shadow.Some?
      ensures var RunState(list, running, b2) :=
                Retire(old(runningList), old(runningSet), Balances(old(accounts), old(shadow.value.cash)), precision);
              Model() == old(Model()).(runningList := list, runningSet := running, accounts := b2.accounts,
                                       shadow := Some(old(shadow.value).(cash := b2.shadowCash)))
    {
      var willRemove := MarkIdle(precision);
      RemoveMarked(willRemove);
    }

    /** Step 3 of runMoment: the retirement scan. */
    method MarkIdle(precision: int) returns (willRemove: seq<Live>)
      requires shadow.Some?
      requires Bounded(runningList, |accounts|)
      modifies this
      ensures shadow.Some?
      ensures var ScanResult(w, b2) := Scan(old(runningList), Balances(old(accounts), old(shadow.value.cash)), precision);
              && willRemove == w
              && Model() == old(Model()).(accounts := b2.accounts, shadow := Some(old(shadow.value).(cash := b2.shadowCash)))
    {
      ghost var b := Balances(accounts, shadow.value.cash);
      var list := runningList;
      var accs := accounts;
      var cash := shadow.value.cash;
      willRemove := [];
      for k := 0 to |list|
        modifies {}
        invariant Bounded(list[..k], |b.accounts|)
        invariant ScanResult(willRemove, Balances(accs, cash)) == Scan(list[..k], b, precision)
      {
        var x := list[k];
        ScanSnoc(list, k, b, precision);
        var a := accs[x];
        if a.position == 0 && a.cash <= precision as real {
          if a.cash != 0.0 {
            accs := accs[x := a.(cash := 0.0)];   // sub-ledger checkout
            cash := cash + a.cash;                // shadow checkin
          }
          willRemove := willRemove + [x];
        }
      }
      assert list[..|list|] == list;
      accounts := accs;
      shadow := Some(shadow.value.(cash := cash));
    }

    /** Step 4 of runMoment: remove every marked system from the running list and set. */
    method RemoveMarked(willRemove: seq<Live>)
      modifies this
      ensures Model() == old(Model()).(runningList := RemoveEach(old(runningList), willRemove),
                                       runningSet := old(runningSet) - Elems(willRemove))
    {
      ghost var s0 := Model();
      for k := 0 to |willRemove|
        invariant Model() == s0.(runningList := runningList, runningSet := runningSet)
        invariant runningList == RemoveEach(s0.runningList, willRemove[..k])
        invariant runningSet == s0.runningSet - Elems(willRemove[..k])
      {
        assert willRemove[..k + 1] == willRemove[..k] + [willRemove[k]];
        assert Elems(willRemove[..k + 1]) == Elems(willRemove[..k]) + {willRemove[k]};
        runningList := Remove(runningList, willRemove[k]);
        runningSet := runningSet - {willRemove[k]};
      }
      assert willRemove[..|willRemove|] == willRemove;
    }

    /**
     * Step 5 of runMoment: append each selected system that has positive cash and is
     * not in the running set to the running list, and add it to the set.
     */
    method AdmitSelected(cur: seq<Live>)
      requires Bounded(cur, |accounts|)
      modifies this
      ensures var Admission(list, running) := Admit(cur, old(accounts), old(runningList), old(runningSet));
              Model() == old(Model()).(runningList := list, runningSet := running)
    {
      ghost var s0 := Model();
      for k := 0 to |cur|
        invariant Model() == s0.(runningList := runningList, runningSet := runningSet)
        invariant forall x :: x in cur[..k] ==> x in cur
        invariant Admission(runningList, runningSet) == Admit(cur[..k], accounts, s0.runningList, s0.runningSet)
      {
        var x := cur[k];
        assert cur[..k + 1] == cur[..k] + [x];
        assert forall y :: y in cur[..k + 1] ==> y in cur;
        assert x in cur;
        if accounts[x].cash > 0.0 && x !in runningSet {
          runningList := runningList + [x];
          runningSet := runningSet + {x};
        }
      }
      assert cur[..|cur|] == cur;
    }

    /**
     * Step 6 of runMoment: run each running system in list order and append every
     * trade record it emits to the master ledger.
     */
    method ExecuteRunning(date: int, exec: Executor)
      requires tm.Some?
      requires Bounded(runningList, |accounts|)
      modifies this
      ensures var Execution(records, accs) := Execute(date, old(runningList), old(accounts), exec);
              Model() == old(Model()).(accounts := accs,
                                       tm := Some(old(tm.value).(trades := old(tm.value.trades) + records)))
    {
      ghost var accs0 := accounts;
      var list := runningList;
      var accs := accounts;
      var records: seq<TradeRecord> := [];
      for k := 0 to |list|
        modifies {}
        invariant Bounded(list[..k], |accs0|)
        invariant Execution(records, accs) == Execute(date, list[..k], accs0, exec)
      {
        var x := list[k];
        ExecuteSnoc(date, list, k, accs0, exec);
        var st := exec(date, x, accs[x]);
        if st.record.Some? {
          records := records + [st.record.value];   // harvested for addTradeRecord
        }
        accs := accs[x := st.account];
      }
      assert list[..|list|] == list;
      accounts := accs;
      tm := Some(tm.value.(trades := tm.value.trades + records));
    }

    /** Portfolio::run over a given sequence of dates; `select` stands for the selector. */
    method Run(dates: seq<int>, select: int -> seq<Proto>, adjust: Allocator, exec: Executor)
      returns (r: Outcome<PortfolioError>)
      requires Valid() && PreservesShape(adjust)
      requires se.Some? ==> SelectsFromUniverse(se.value.universe, select)
      modifies this
      ensures Valid()
      ensures (r, Model()) == PortfolioSpec.Run(old(Model()), dates, select, adjust, exec)
    {
      ReadyForRunSpec(Model());
      var ok := ReadyForRun();
      if !ok {
        return Fail(PreparationFailed);
      }
      ghost var prepared := Model();
      for i := 0 to |dates|
        invariant Valid() && isReady && se == prepared.se && sysMap == prepared.sysMap
        invariant RunTicks(Model(), dates[i..], select, adjust, exec)
                  == RunTicks(prepared, dates, select, adjust, exec)
      {
        assert dates[i..][0] == dates[i] && dates[i..][1..] == dates[i + 1..];
        var _ := RunMoment(dates[i], select(dates[i]), adjust, exec);
      }
      r := Pass;
    }

    /**
     * Portfolio::getFunds(ktype): the funds of the running systems' sub-ledgers summed
     * in running-list order, plus the shadow ledger's current cash.
     */
    method GetFunds(subFunds: Live -> Funds) returns (r: Funds)
      requires shadow.Some?
      ensures r == AddCash(FundsSeqSum(runningList, subFunds), shadow.value.cash)
    {
      var total := Funds(0.0, 0.0, 0.0, 0.0);
      for k := 0 to |runningList|
        invariant total == FundsSeqSum(runningList[..k], subFunds)
      {
        assert runningList[..k + 1] == runningList[..k] + [runningList[k]];
        FundsSeqSumSnoc(runningList[..k], runningList[k], subFunds);
        total := Plus(total, subFunds(runningList[k]));
      }
      assert runningList[..|runningList|] == runningList;
      r := total.(cash := total.cash + shadow.value.cash);
    }

    /**
     * Portfolio::getFunds(datetime, ktype): the funds of every mapped live system's
     * sub-ledger at that date, plus the shadow ledger's cash at that date.
     */
    method GetFundsAt(subFundsAt: Live -> Funds, shadowCashAt: real) returns (r: Funds)
      requires shadow.Some?
      ensures r == AddCash(FundsSetSum(sysMap.Keys, Via(sysMap, subFundsAt)), shadowCashAt)
    {
      var total := Funds(0.0, 0.0, 0.0, 0.0);
      var rest := sysMap.Keys;
      ghost var done: set<Proto> := {};
      while rest != {}
        invariant rest + done == sysMap.Keys && rest !! done
        invariant total == FundsSetSum(done, Via(sysMap, subFundsAt))
        decreases rest
      {
        var p :| p in rest;
        FundsSetSumAdd(done, p, Via(sysMap, subFundsAt));
        total := Plus(total, subFundsAt(sysMap[p]));
        done := done + {p};
        rest := rest - {p};
      }
      r := total.(cash := total.cash + shadowCashAt);
    }

    /** Pointwise sum, over every mapped live system, of its sub-ledger's curve. */
    method SumCurves(dates: seq<int>, curve: Live -> seq<real>) returns (r: seq<real>)
      requires forall p :: p in sysMap ==> |curve(sysMap[p])| == |dates|
      ensures |r| == |dates|
      ensures forall i :: 0 <= i < |dates| ==> r[i] == SetSum(sysMap.Keys, Column(sysMap, curve, i))
    {
      var n := |dates|;
      var result := new real[n](_ => 0.0);
      var rest := sysMap.Keys;
      ghost var done: set<Proto> := {};
      while rest != {}
        invariant rest + done == sysMap.Keys && rest !! done
        invariant forall i :: 0 <= i < n ==> result[i] == SetSum(done, Column(sysMap, curve, i))
        decreases rest
      {
        var p :| p in rest;
        AddInto(result, curve(sysMap[p]));
        forall i | 0 <= i < n
          ensures result[i] == SetSum(done + {p}, Column(sysMap, curve, i))
        {
          SetSumAdd(done, Column(sysMap, curve, i), p);
        }
        done := done + {p};
        rest := rest - {p};
      }
      r := result[..];
    }

    /** result[i] += c[i] for every date index i. */
    static method AddInto(result: array<real>, c: seq<real>)
      requires |c| == result.Length
      modifies result
      ensures forall i :: 0 <= i < result.Length ==> result[i] == old(result[i]) + c[i]
    {
      for i := 0 to result.Length
        invariant forall j :: 0 <= j < i ==> result[j] == old(result[j]) + c[j]
        invariant forall j :: i <= j < result.Length ==> result[j] == old(result[j])
      {
        result[i] := result[i] + c[i];
      }
    }

    /**
     * Portfolio::getFundsCurve(dates, ktype): pointwise sum of the mapped sub-ledgers'
     * funds curves; the shadow ledger's cash is not added.
     */
    method GetFundsCurve(dates: seq<int>, fundsCurve: Live -> seq<real>) returns (r: seq<real>)
      requires forall p :: p in sysMap ==> |fundsCurve(sysMap[p])| == |dates|
      ensures |r| == |dates|
      ensures forall i :: 0 <= i < |dates| ==> r[i] == SetSum(sysMap.Keys, Column(sysMap, fundsCurve, i))
    {
      r := SumCurves(dates, fundsCurve);
    }

    /**
     * Portfolio::getProfitCurve(dates, ktype): pointwise sum of the mapped sub-ledgers'
     * profit curves; the shadow ledger is not included.
     */
    method GetProfitCurve(dates: seq<int>, profitCurve: Live -> seq<real>) returns (r: seq<real>)
      requires forall p :: p in sysMap ==> |profitCurve(sysMap[p])| == |dates|
      ensures |r| == |dates|
      ensures forall i :: 0 <= i < |dates| ==> r[i] == SetSum(sysMap.Keys, Column(sysMap, profitCurve, i))
    {
      r := SumCurves(dates, profitCurve);
    }
  }
}
