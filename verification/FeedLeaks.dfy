/** Which requests throw after they posted money: the guards that fail, and what a subscriber is left with. */
module FeedLeaks {
  import opened Common
  import opened Sums
  import opened Ledger
  import opened Installments
  import opened Settlement
  import opened Bank
  import opened BankInvariant
  import opened CreditLines
  import opened MoneyMoves
  import opened Purchases
  import opened Repayments
  import opened Payouts
  import opened History
  import opened Feed

  // ---- Settling installments ----

  /** Settling the row throws: nothing to restore on the ceiling, or the row that restores it is there already
      because the installment was settled before. */
  predicate SettleBlocked(s: State, i: nat)
    requires i < |s.installments|
  {
    && s.installments[i].wallet < |s.wallets|
    && (s.installments[i].principal <= 0 || FindKey(s.txs, InstallmentRestore(i)).Some?)
  }

  predicate SomeBlocked(s: State, w: WalletId, n: nat)
    requires n <= |s.installments|
  {
    exists i :: 0 <= i < n && s.installments[i].wallet == w && Unpaid(s.installments[i]) && SettleBlocked(s, i)
  }

  lemma {:induction false} ReceivableAccepted(h: Holder, delta: int)
    requires delta != 0
    ensures Accepts(ReceivableLegs(h, delta))
  {
    ReceivableEffect(h, delta);
    AcceptsExactly(ReceivableLegs(h, delta));
  }

  lemma {:induction false} SettleOneFailsExactly(s: State, i: nat, tx: TxId)
    requires i < |s.installments|
    ensures SettleOne(s, i, tx).Fail? <==> SettleBlocked(s, i)
    ensures SettleOne(s, i, tx).Ok? ==>
              var s' := SettleOne(s, i, tx).value;
              && |s'.installments| == |s.installments| && |s'.wallets| == |s.wallets|
              && (forall k :: 0 <= k < |s.installments| && k != i ==> s'.installments[k] == s.installments[k])
              && forall k :: k != i ==>
                  FindKey(s'.txs, InstallmentRestore(k)).Some? == FindKey(s.txs, InstallmentRestore(k)).Some?
  {
    hide Accepts, ReceivableLegs, FindKey;
    var row := s.installments[i];
    if row.wallet < |s.wallets| {
      if row.principal != 0 {
        ReceivableAccepted(Own(s, row.wallet), -row.principal);
      }
      var restore := Row(Virtual, Completed, None, Some(row.wallet), row.principal, InstallmentRestore(i));
      forall k | k != i
        ensures FindKey(s.txs + [restore], InstallmentRestore(k)).Some? == FindKey(s.txs, InstallmentRestore(k)).Some?
      {
        FindKeySnoc(s.txs, restore, InstallmentRestore(k));
      }
    }
  }

  lemma {:induction false} SettlingFailsExactly(s: State, w: WalletId, n: nat, tx: TxId)
    requires n <= |s.installments|
    ensures SettleOutstanding(s, w, n, tx).Fail? <==> SomeBlocked(s, w, n)
    ensures SettleOutstanding(s, w, n, tx).Ok? ==>
              var s' := SettleOutstanding(s, w, n, tx).value;
              && |s'.installments| == |s.installments| && |s'.wallets| == |s.wallets|
              && (forall k :: n <= k < |s.installments| ==> s'.installments[k] == s.installments[k])
              && forall k :: k >= n ==>
                  FindKey(s'.txs, InstallmentRestore(k)).Some? == FindKey(s.txs, InstallmentRestore(k)).Some?
  {
    hide SettleOne, FindKey;
    if n > 0 {
      SettlingFailsExactly(s, w, n - 1, tx);
      var before := SettleOutstanding(s, w, n - 1, tx);
      if before.Ok? {
        var s1 := before.value;
        SettleOneFailsExactly(s1, n - 1, tx);
        assert SettleBlocked(s1, n - 1) <==> SettleBlocked(s, n - 1);
      }
    }
  }

  lemma {:induction false} MarkAllPaidFailsExactly(s: State, w: WalletId, tx: TxId)
    ensures MarkAllPaid(s, w, tx).Fail? <==> SomeBlocked(s, w, |s.installments|)
  {
    hide SettleOutstanding, SomeBlocked;
    SettlingFailsExactly(s, w, |s.installments|, tx);
  }

  lemma {:induction false} MarkPaidFailsExactly(s: State, i: nat, tx: TxId)
    requires i < |s.installments|
    ensures MarkPaid(s, i, tx).Fail? <==> SettleBlocked(s, i)
  {
    hide SettleOne, SettleBlocked;
    SettleOneFailsExactly(s, i, tx);
  }

  /** In sound books a settled installment blocks every later settlement of it. */
  lemma {:induction false} PaidIsBlocked(s: State, i: nat)
    requires Inv(s) && i < |s.installments| && s.installments[i].status == Paid
    ensures SettleBlocked(s, i)
  {
    assert InstallmentOk(s.wallets, s.txs, s.installments[i]);
  }

  // ---- Repayments ----

  /** What a landed charge credits. */
  function Credited(s: State, t: TxId): seq<Movement>
    requires Chargeable(s, t)
  {
    var main := s.txs[t].to.value;
    var charge := ChargeOf(s, t);
    if charge.Fail? then []
    else
      var r := Route(s, main, charge.value.parts, false, OfRepayment(t));
      if r.Fail? then [] else [Movement(Own(s, main), charge.value.principal + r.value.unrouted)] + r.value.legs
  }

  /** The charge came in, and then something it should settle cannot be settled. */
  predicate RepaymentThrowsLate(s: State, t: TxId)
    requires Chargeable(s, t)
  {
    && !s.wallets[s.txs[t].to.value].closed && CreditRepayment(s, t, s.txs[t].to.value).Ok?
    && if Credited(s, t)[0].amount <= 0 then true
       else if s.txs[t].installment.Some? then SettleBlocked(s, s.txs[t].installment.value)
       else SomeBlocked(s, s.txs[t].settles.value, |s.installments|)
  }

  lemma {:induction false} CreditUnfolds(s: State, t: TxId)
    requires Chargeable(s, t) && CreditRepayment(s, t, s.txs[t].to.value).Ok?
    ensures |Credited(s, t)| > 0
    ensures var s1, main := CreditRepayment(s, t, s.txs[t].to.value).value, s.txs[t].to.value;
            var legs := CashInLegs(BankCash, s.wallets[main].typ.currency, s.txs[t].amount, Credited(s, t));
            && Accepts(legs) && s1.journal == s.journal + [Entry(t, legs)]
            && s1.wallets == s.wallets && s1.installments == s.installments && t < |s1.txs|
            && s1.txs[t].amount == Credited(s, t)[0].amount
            && (forall k: nat ::
                FindKey(s1.txs, InstallmentRestore(k)).Some? == FindKey(s.txs, InstallmentRestore(k)).Some?)
  {
    hide Route, ChargeOf, CashInLegs, Accepts, FindKey;
    var main := s.txs[t].to.value;
    var charge := ChargeOf(s, t).value;
    RouteSplits(s, main, charge.parts, false, OfRepayment(t));
    var r := Route(s, main, charge.parts, false, OfRepayment(t)).value;
    forall k: nat
      ensures FindKey(CreditRepayment(s, t, main).value.txs, InstallmentRestore(k)).Some?
          == FindKey(s.txs, InstallmentRestore(k)).Some?
    {
      RouteKeepsRestores(s, main, charge.parts, false, OfRepayment(t), k);
      FindKeyUpdate(r.state.txs, t, r.state.txs[t].(amount := charge.principal + r.unrouted), InstallmentRestore(k));
    }
  }

  lemma {:induction false} RouteKeepsRestores(s: State, main: WalletId, parts: seq<Part>, transfer: bool,
      prefix: SplitPrefix, k: nat)
    requires Route(s, main, parts, transfer, prefix).Ok?
    ensures FindKey(Route(s, main, parts, transfer, prefix).value.state.txs, InstallmentRestore(k)).Some?
         == FindKey(s.txs, InstallmentRestore(k)).Some?
  {
    hide FindKey;
    if |parts| > 0 {
      var n := |parts| - 1;
      RouteKeepsRestores(s, main, parts[..n], transfer, prefix, k);
      var r := Route(s, main, parts[..n], transfer, prefix).value;
      var row := Row(if transfer then Transfer else Deposit, Completed, if transfer then Some(main) else None,
                     parts[n].target, parts[n].amount, SliceKey(prefix, parts[n].slice));
      FindKeySnoc(r.state.txs, row, InstallmentRestore(k));
    }
  }

  lemma {:induction false} SameBlocked(s: State, s1: State)
    requires s1.installments == s.installments && |s1.wallets| == |s.wallets|
    requires forall k: nat ::
        FindKey(s1.txs, InstallmentRestore(k)).Some? == FindKey(s.txs, InstallmentRestore(k)).Some?
    ensures forall i :: 0 <= i < |s.installments| ==> SettleBlocked(s1, i) == SettleBlocked(s, i)
    ensures forall w: WalletId :: SomeBlocked(s1, w, |s.installments|) == SomeBlocked(s, w, |s.installments|)
  {
    hide FindKey;
    forall i | 0 <= i < |s.installments| ensures SettleBlocked(s1, i) == SettleBlocked(s, i) {
      assert FindKey(s1.txs, InstallmentRestore(i)).Some? == FindKey(s.txs, InstallmentRestore(i)).Some?;
    }
    hide SettleBlocked;
  }

  /** A verified charge throws after its money was posted if and only if nothing reaches the repository, or an
      installment it pays off cannot be settled. */
  lemma {:induction false} RepaymentLeaksExactly(s: State, t: TxId)
    requires Formed(s) && Chargeable(s, t)
    ensures RepaymentThrowsLate(s, t) <==> ReceiveMoney(s, t).Fail? && !SameBalances(s.journal, ReceiveStop(s, t))
    ensures RepaymentThrowsLate(s, t) ==>
              forall v: WalletId ::
                  Balance(ReceiveStop(s, t), v) == Balance(s.journal, v) + Sum(Credited(s, t), Moved(v))
  {
    hide Formed, CreditRepayment, Credited, SettleBlocked, SomeBlocked, MarkPaid, MarkAllPaid, FindKey, CashInLegs,
      Accepts, RowOk;
    FormedRow(s, t);
    OneTarget(s, t);
    var tx, main := s.txs[t], s.txs[t].to.value;
    var credited := CreditRepayment(s, t, main);
    if !s.wallets[main].closed && credited.Ok? {
      CreditUnfolds(s, t);
      CreditedBalances(s, t);
      var s1 := credited.value;
      SameBlocked(s, s1);
      var s2 := SetStatus(s1, t, Completed);
      StatusKeepsRestores(s1, t);
      SameBlocked(s1, s2);
      if tx.installment.Some? {
        MarkPaidFailsExactly(s2, tx.installment.value, t);
      } else {
        MarkAllPaidFailsExactly(s2, tx.settles.value, t);
      }
    }
  }

  lemma {:induction false} StatusKeepsRestores(s: State, t: TxId)
    requires t < |s.txs|
    ensures forall k: nat :: FindKey(SetStatus(s, t, Completed).txs, InstallmentRestore(k)).Some?
                          == FindKey(s.txs, InstallmentRestore(k)).Some?
  {
    hide FindKey;
    forall k: nat
      ensures FindKey(SetStatus(s, t, Completed).txs, InstallmentRestore(k)).Some?
          == FindKey(s.txs, InstallmentRestore(k)).Some?
    {
      FindKeyUpdate(s.txs, t, s.txs[t].(status := Completed), InstallmentRestore(k));
    }
  }

  /** A charge is for one installment or for all of a wallet's. */
  lemma {:induction false} OneTarget(s: State, t: TxId)
    requires t < |s.txs| && RowOk(|s.wallets|, |s.installments|, s.txs, t)
    ensures s.txs[t].settles.Some? ==> s.txs[t].installment.None?
    ensures s.txs[t].amount > 0
  {
  }

  /** The cash that came in is on somebody's balance. */
  lemma {:induction false} CreditedBalances(s: State, t: TxId)
    requires Chargeable(s, t) && CreditRepayment(s, t, s.txs[t].to.value).Ok?
    ensures var j := CreditRepayment(s, t, s.txs[t].to.value).value.journal;
            && (forall v: WalletId :: Balance(j, v) == Balance(s.journal, v) + Sum(Credited(s, t), Moved(v)))
            && !SameBalances(s.journal, j)
  {
    hide Credited, CreditRepayment, CashInLegs, Accepts, Balance;
    var main := s.txs[t].to.value;
    var credits, currency := Credited(s, t), s.wallets[main].typ.currency;
    var legs := CashInLegs(BankCash, currency, s.txs[t].amount, credits);
    CreditUnfolds(s, t);
    CashInEffect(BankCash, currency, s.txs[t].amount, credits);
    AcceptsExactly(legs);
    var j := CreditRepayment(s, t, main).value.journal;
    forall v: WalletId ensures Balance(j, v) == Balance(s.journal, v) + Sum(credits, Moved(v)) {
      EntryMoves(s.journal, Entry(t, legs), v);
    }
    CashHead(currency, s.txs[t].amount, credits);
    assert Sum(credits, MovedIn(currency)) > 0;
    var v := SomeoneGains(credits, currency);
    assert Balance(j, v) != Balance(s.journal, v);
  }

  lemma {:induction false} CashHead(currency: CurrencyId, total: int, credits: seq<Movement>)
    ensures |CashInLegs(BankCash, currency, total, credits)| > 0
        && CashInLegs(BankCash, currency, total, credits)[0].amount == total
  {
  }

  lemma {:induction false} EntryMoves(j: Journal, e: Entry, v: WalletId)
    ensures Balance(j + [e], v) == Balance(j, v) + Sum(e.legs, BalanceIn(v))
  {
    JournalSnoc(j, e, BalanceIn(v));
  }

  lemma {:induction false} SomeoneGains(ms: seq<Movement>, c: CurrencyId) returns (v: WalletId)
    requires Sum(ms, MovedIn(c)) > 0
    ensures Sum(ms, Moved(v)) > 0
  {
    var init, last := ms[..|ms| - 1], ms[|ms| - 1];
    if MovedIn(c)(last) > 0 {
      v := last.holder.id;
      SumNonNegative(init, Moved(v));
    } else {
      v := SomeoneGains(init, c);
    }
  }

  // ---- Completing a purchase ----

  /** A purchase cannot be settled: a balance, the ceiling or the repository falls short, a funding row is there
      already, or the entry would not balance. */
  predicate SettleRefused(s: State, p: TxId, support: Option<Funding>)
    requires Payable(s, p, support)
  {
    var from, amount := s.txs[p].from.value, s.txs[p].amount;
    var supported := if support.Some? && support.value.amount > 0 then support.value.amount else 0;
    var rest := amount - if support.Some? then support.value.amount else 0;
    var draws := DrawsOnLine(s, from, rest);
    || (supported > 0 && (Balance(s.journal, support.value.wallet) < supported || FindKey(s.txs, SupportFund(p)).Some?))
    || (draws && DrawRefused(s, p, from, rest))
    || !BackingExists(s, from)
    || Balance(s.journal, from) + supported + (if draws then rest else 0) < amount
    || !Accepts(PurchaseLegs(s, p, support))
  }

  predicate DrawRefused(s: State, p: TxId, from: WalletId, rest: int)
    requires from < |s.wallets| && s.wallets[from].repository.Some?
  {
    var r := s.wallets[from].repository.value;
    || rest > s.wallets[from].virtualAmount || r >= |s.wallets| || Balance(s.journal, r) < rest
    || FindKey(s.txs, CreditFund(p)).Some? || FindKey(s.txs, CreditDraw(p)).Some?
  }

  lemma {:induction false} DrawFailsExactly(s: State, p: TxId, from: WalletId, rest: int, today: Date)
    requires from < |s.wallets| && s.wallets[from].repository.Some? && OnCalendar(today) && rest > 0
    ensures Draw(s, p, from, rest, today).Fail? <==> DrawRefused(s, p, from, rest)
    ensures Draw(s, p, from, rest, today).Ok? ==> SameBalances(s.journal, Draw(s, p, from, rest, today).value.journal)
  {
    hide Accepts, ReceivableLegs, FindKey, Balance, CreatePlan, Schedule;
    ReceivableAccepted(Own(s, from), rest);
    ReceivableMovesNoBalance(s.journal, p, Own(s, from), rest);
    if s.wallets[from].repository.value < |s.wallets| {
      var row := Row(Transfer, Completed, s.wallets[from].repository, Some(from), rest, CreditFund(p));
      FindKeySnoc(s.txs, row, CreditDraw(p));
    }
    PlansPostNothing(p, today);
  }

  lemma {:induction false} PlansPostNothing(p: TxId, today: Date)
    requires OnCalendar(today)
    ensures forall t: State, w: WalletId, d: int :: w < |t.wallets| ==>
        CreatePlan(t, w, p, d, today).journal == t.journal
  {
    hide Schedule;
  }

  lemma {:induction false} SupportFailsExactly(s: State, p: TxId, from: WalletId, support: Funding)
    requires support.amount > 0
    ensures FundFromSupport(s, p, from, support).Fail?
       <==> Balance(s.journal, support.wallet) < support.amount || FindKey(s.txs, SupportFund(p)).Some?
    ensures FundFromSupport(s, p, from, support).Ok? ==>
              var s1 := FundFromSupport(s, p, from, support).value;
              && s1 == s.(txs := s1.txs)
              && FindKey(s1.txs, CreditFund(p)).Some? == FindKey(s.txs, CreditFund(p)).Some?
              && FindKey(s1.txs, CreditDraw(p)).Some? == FindKey(s.txs, CreditDraw(p)).Some?
  {
    hide FindKey, Balance;
    var row := Row(Transfer, Completed, Some(support.wallet), Some(from), support.amount, SupportFund(p));
    FindKeySnoc(s.txs, row, CreditFund(p));
    FindKeySnoc(s.txs, row, CreditDraw(p));
  }

  /** What funding a purchase takes, all told on the tables before it. */
  predicate FundingRefused(s: State, p: TxId, support: Option<Funding>)
    requires Payable(s, p, support)
  {
    var from := s.txs[p].from.value;
    var rest := s.txs[p].amount - if support.Some? then support.value.amount else 0;
    || (support.Some? && support.value.amount > 0
        && (Balance(s.journal, support.value.wallet) < support.value.amount || FindKey(s.txs, SupportFund(p)).Some?))
    || (DrawsOnLine(s, from, rest) && DrawRefused(s, p, from, rest))
  }

  lemma {:induction false} FundingFailsExactly(s: State, p: TxId, support: Option<Funding>, today: Date)
    requires Payable(s, p, support) && OnCalendar(today)
    ensures FundPurchase(s, p, support, today).Fail? <==> FundingRefused(s, p, support)
    ensures FundPurchase(s, p, support, today).Ok?
        ==> SameBalances(s.journal, FundPurchase(s, p, support, today).value.journal)
  {
    hide FundFromSupport, Draw, FindKey, Balance;
    var from := s.txs[p].from.value;
    var rest := s.txs[p].amount - if support.Some? then support.value.amount else 0;
    var s1 := if support.Some? && support.value.amount > 0 then FundFromSupport(s, p, from, support.value) else Ok(s);
    if support.Some? && support.value.amount > 0 {
      SupportFailsExactly(s, p, from, support.value);
    }
    if s1.Ok? && DrawsOnLine(s, from, rest) {
      DrawFailsExactly(s1.value, p, from, rest, today);
    }
  }

  /** Settling a purchase throws if and only if one of its guards fails; it never throws after its entry. */
  lemma {:induction false} SettleFailsExactly(s: State, p: TxId, support: Option<Funding>, today: Date)
    requires Payable(s, p, support) && OnCalendar(today)
    ensures Settle(s, p, support, today).Fail? <==> SettleRefused(s, p, support)
  {
    hide FundPurchase, FindKey, Balance, DrawRefused, Accepts, MultiLegs, FundingLegs;
    FundingFailsExactly(s, p, support, today);
  }

  // ---- Support top-ups ----

  /** The wallet a top-up lands on, and the tables with it. */
  predicate TopUpThrowsLate(s: State, t: TxId)
    requires t < |s.txs| && s.txs[t].completes.Some?
  {
    var p := s.txs[t].completes.value;
    && s.txs[t].status != Completed
    && p < |s.txs| && p != t && s.txs[p].from.Some? && s.txs[p].to.Some?
    && s.txs[p].from.value < |s.wallets| && s.txs[p].to.value < |s.wallets| && s.txs[p].status != Completed
    && var from, to := s.wallets[s.txs[p].from.value], s.wallets[s.txs[p].to.value];
       var landed := LandTopUp(s, t, from.user, from.typ.currency);
       && landed.Ok?
       && (from.closed || to.closed
           || LateSettleRefused(landed.value.0, p, Some(Funding(landed.value.1, s.txs[t].amount))))
  }

  predicate LateSettleRefused(s: State, p: TxId, support: Option<Funding>) {
    Payable(s, p, support) && SettleRefused(s, p, support)
  }

  /** A top-up throws after it landed if and only if the purchase it was asked for is still open and one side of it
      is closed or its settlement is refused. */
  lemma {:induction false} TopUpLeaksExactly(s: State, t: TxId, today: Date)
    requires Formed(s) && t < |s.txs| && s.txs[t].completes.Some? && OnCalendar(today)
    ensures TopUpThrowsLate(s, t) <==> CompleteTopUp(s, t, today).Fail? && !SameBalances(s.journal, TopUpStop(s, t))
    ensures TopUpThrowsLate(s, t) ==>
              var p := s.txs[t].completes.value;
              var from := s.wallets[s.txs[p].from.value];
              var support := LandTopUp(s, t, from.user, from.typ.currency).value.1;
              forall v: WalletId ::
                  Balance(TopUpStop(s, t), v) == Balance(s.journal, v) + if v == support then s.txs[t].amount else 0
  {
    hide LandTopUp, Settle, SettleRefused, Balance, Formed, RowOk;
    var p := s.txs[t].completes.value;
    PositiveAmount(s, t);
    if p < |s.txs| && p != t && s.txs[p].from.Some? && s.txs[p].to.Some?
       && s.txs[p].from.value < |s.wallets| && s.txs[p].to.value < |s.wallets|
    {
      var from := s.wallets[s.txs[p].from.value];
      PositiveAmount(s, p);
      if LandTopUp(s, t, from.user, from.typ.currency).Ok? {
        LandedBalances(s, t, from.user, from.typ.currency);
        var (s1, support) := LandTopUp(s, t, from.user, from.typ.currency).value;
        if s.txs[p].status != Completed {
          LandedPayable(s, t, from.user, from.typ.currency, p);
          SettleFailsExactly(s1, p, Some(Funding(support, s.txs[t].amount)), today);
        }
      }
    }
  }

  lemma {:induction false} PositiveAmount(s: State, t: TxId)
    requires Formed(s) && t < |s.txs|
    ensures s.txs[t].amount > 0
  {
    hide Formed;
    FormedRow(s, t);
  }

  lemma {:induction false} LandedPayable(s: State, t: TxId, user: nat, currency: CurrencyId, p: TxId)
    requires t < |s.txs| && LandTopUp(s, t, user, currency).Ok? && s.txs[t].amount > 0
    requires p < |s.txs| && p != t && s.txs[p].from.Some? && s.txs[p].to.Some? && s.txs[p].amount > 0
    requires s.txs[p].from.value < |s.wallets| && s.txs[p].to.value < |s.wallets|
    ensures var (s1, support) := LandTopUp(s, t, user, currency).value;
            Payable(s1, p, Some(Funding(support, s.txs[t].amount)))
  {
  }

  lemma {:induction false} LandedBalances(s: State, t: TxId, user: nat, currency: CurrencyId)
    requires t < |s.txs| && LandTopUp(s, t, user, currency).Ok? && s.txs[t].amount > 0
    ensures var (s1, support) := LandTopUp(s, t, user, currency).value;
            && (forall v: WalletId :: Balance(s1.journal, v)
                  == Balance(s.journal, v)
                      + if v == support && s.txs[t].status != Completed then s.txs[t].amount else 0)
            && (SameBalances(s.journal, s1.journal) <==> s.txs[t].status == Completed)
  {
    hide Balance, Accepts, Against;
    var (s0, support) := SupportWalletFor(s, user, currency).value;
    var s1 := LandTopUp(s, t, user, currency).value.0;
    if s.txs[t].status != Completed {
      var e := Entry(t, Against(Own(s0, support), s.txs[t].amount, BankCash));
      AgainstEffect(Own(s0, support), s.txs[t].amount, BankCash);
      forall v: WalletId ensures Balance(s1.journal, v) == Balance(s.journal, v)
          + if v == support then s.txs[t].amount else 0 {
        EntryMoves(s.journal, e, v);
      }
      assert Balance(s1.journal, support) != Balance(s.journal, support);
    }
  }

  // ---- Write-offs ----

  /** The slices of a write-off were posted, and then a row it should settle cannot be settled. */
  predicate WriteOffThrowsLate(s: State, w: WalletId, quit: bool, key: string) {
    Absorb(s, w, quit, key).Ok? && SomeBlocked(s, w, |s.installments|)
  }

  lemma {:induction false} WriteOffFailsLateExactly(s: State, w: WalletId, quit: bool, key: string)
    requires Absorb(s, w, quit, key).Ok?
    ensures WriteOff(s, w, quit, key).Fail? <==> SomeBlocked(s, w, |s.installments|)
  {
    hide Absorb, MarkAllPaid, SomeBlocked;
    AbsorbKeepsRestores(s, w, quit, key);
    var (s1, tx) := Absorb(s, w, quit, key).value;
    SameBlocked(s, s1);
    MarkAllPaidFailsExactly(s1, w, tx);
  }

  lemma {:induction false} AbsorbKeepsRestores(s: State, w: WalletId, quit: bool, key: string)
    requires Absorb(s, w, quit, key).Ok?
    ensures var s1 := Absorb(s, w, quit, key).value.0;
            && s1.installments == s.installments && s1.wallets == s.wallets
            && forall k: nat ::
                FindKey(s1.txs, InstallmentRestore(k)).Some? == FindKey(s.txs, InstallmentRestore(k)).Some?
  {
    hide Route, Parts, RepaymentSplit, OutstandingRows, Accepts, MultiLegs, Balance, FindKey;
    var wallet := s.wallets[w];
    var split := RepaymentSplit(OutstandingRows(s.installments, w));
    var unblockFee := if quit then 0 else wallet.typ.terms.unblockFee;
    var parts, prefix := Parts(wallet.typ.terms, split.fee, split.penalty, unblockFee), if quit then OfQuit(key)
        else OfOverdue(key);
    RouteSplits(s, wallet.repository.value, parts, true, prefix);
    var r := Route(s, wallet.repository.value, parts, true, prefix).value;
    var row := Row(Adjustment, Completed, wallet.repository, None, split.fee + split.penalty + unblockFee, Client(key));
    forall k: nat
      ensures FindKey(r.state.txs + [row], InstallmentRestore(k)).Some? == FindKey(s.txs, InstallmentRestore(k)).Some?
    {
      RouteKeepsRestores(s, wallet.repository.value, parts, true, prefix, k);
      FindKeySnoc(r.state.txs, row, InstallmentRestore(k));
    }
  }

  // ---- Payouts ----

  /** A payout throws after its fee was posted: the key of the net amount is taken. */
  predicate PayOutThrowsLate(s: State, payer: Payer, amount: int, key: Key, purchase: Option<TxId>)
    requires PayerOk(s, payer)
  {
    var fee := FeeOfPayout(payer, amount);
    0 < fee < amount && PayOutFee(s, payer, fee, key, purchase).Ok? && FindKey(s.txs, key).Some?
  }

  /** ... or before anything was posted: the fee's key or, without a fee, the key itself is taken, or the fee
      repository keeps another currency. */
  predicate PayOutRefused(s: State, payer: Payer, amount: int, key: Key)
    requires PayerOk(s, payer)
  {
    var fee := FeeOfPayout(payer, amount);
    || (fee > 0 && (FindKey(s.txs, PayoutFee(key)).Some?
                    || s.wallets[payer.feeRepository.value].typ.currency != s.wallets[payer.wallet].typ.currency))
    || (fee <= 0 && amount > fee && FindKey(s.txs, key).Some?)
  }

  lemma {:induction false} PayOutFailsExactly(s: State, payer: Payer, amount: int, key: Key, purchase: Option<TxId>)
    requires PayerOk(s, payer)
    ensures PayOut(s, payer, amount, key, purchase).Fail?
       <==> PayOutRefused(s, payer, amount, key) || PayOutThrowsLate(s, payer, amount, key, purchase)
    ensures PayOutRefused(s, payer, amount, key) ==> PayOutStop(s, payer, amount, key, purchase) == s.journal
  {
    hide PayOutFee, PayNet, WithdrawalFee, FindKey;
    var fee := FeeOfPayout(payer, amount);
    var s1 := if fee <= 0 then Ok(s) else PayOutFee(s, payer, fee, key, purchase);
    if fee > 0 {
      FeeFailsExactly(s, payer, fee, key, purchase);
    }
    if s1.Ok? && amount > fee {
      NetFailsExactly(s1.value, payer, amount - fee, key, purchase);
    }
  }

  lemma {:induction false} KeyInFee(key: Key)
    ensures PayoutFee(key) != key
  {
    if key.PayoutFee? {
      KeyInFee(key.payout);
    }
  }

  lemma {:induction false} FeeFailsExactly(s: State, payer: Payer, fee: int, key: Key, purchase: Option<TxId>)
    requires PayerOk(s, payer) && payer.feeRepository.Some? && fee > 0
    ensures PayOutFee(s, payer, fee, key, purchase).Fail?
       <==> || FindKey(s.txs, PayoutFee(key)).Some?
            || s.wallets[payer.feeRepository.value].typ.currency != s.wallets[payer.wallet].typ.currency
    ensures PayOutFee(s, payer, fee, key, purchase).Ok? ==>
              var s1 := PayOutFee(s, payer, fee, key, purchase).value;
              s1.wallets == s.wallets && (FindKey(s1.txs, key).Some? <==> FindKey(s.txs, key).Some?)
  {
    hide Accepts, WalletToWallet, FindKey, Own;
    var w, target := payer.wallet, payer.feeRepository.value;
    var row := Row(Transfer, Completed, Some(w), Some(target), fee, PayoutFee(key)).(related := purchase);
    FindKeySnoc(s.txs, row, key);
    KeyInFee(key);
    var s1 := s.(txs := s.txs + [row]);
    OwnCurrency(s, w);
    OwnCurrency(s, target);
    WalletsAccepted(Own(s, w), Own(s, target), fee);
    assert Own(s1, w) == Own(s, w) && Own(s1, target) == Own(s, target) by {
      SameOwner(s, s1, w);
      SameOwner(s, s1, target);
    }
  }

  lemma {:induction false} OwnCurrency(s: State, w: WalletId)
    requires w < |s.wallets|
    ensures Own(s, w).currency == s.wallets[w].typ.currency
  {
  }

  lemma {:induction false} SameOwner(s: State, s1: State, w: WalletId)
    requires s1.wallets == s.wallets && w < |s.wallets|
    ensures Own(s1, w) == Own(s, w)
  {
  }

  lemma {:induction false} WalletsAccepted(source: Holder, target: Holder, amount: int)
    requires amount > 0
    ensures Accepts(WalletToWallet(source, target, amount)) <==> source.currency == target.currency
  {
    var legs := WalletToWallet(source, target, amount);
    AcceptsExactly(legs);
    forall f: Leg -> int ensures Sum(legs, f) == f(legs[0]) + f(legs[1]) {
      SumPair(legs[0], legs[1], f);
    }
    assert Sum(legs, SignedIn(source.currency))
        == SignedIn(source.currency)(legs[0]) + SignedIn(source.currency)(legs[1]);
  }

  lemma {:induction false} NetFailsExactly(s: State, payer: Payer, net: int, key: Key, purchase: Option<TxId>)
    requires PayerOk(s, payer) && net > 0
    ensures PayNet(s, payer, net, key, purchase).Fail? <==> FindKey(s.txs, key).Some?
  {
    hide Accepts, Against, FindKey, Own;
    var h := Own(s, payer.wallet);
    CashAccepted(h, -net, BankCash);
    CashAccepted(h, -net, SettlementClearing);
    forall s1: State | s1.wallets == s.wallets ensures Own(s1, payer.wallet) == h {
      SameOwner(s, s1, payer.wallet);
    }
  }

  // ---- Sweeps ----

  /** The payout of a slice is refused: one of its keys is taken, or the fee repository keeps another currency. */
  predicate SliceRefused(s: State, payer: Payer, p: TxId, index: nat, amount: int)
    requires PayerOk(s, payer)
  {
    var fee, key := FeeOfPayout(payer, amount), SweepSlice(payer.wallet, p, index, payer.minute);
    || (fee > 0 && (FindKey(s.txs, PayoutFee(key)).Some?
                    || s.wallets[payer.feeRepository.value].typ.currency != s.wallets[payer.wallet].typ.currency))
    || (amount > Max(fee, 0) && FindKey(s.txs, key).Some?)
  }

  predicate SomeRefused(s: State, payer: Payer, p: TxId, slices: seq<int>)
    requires PayerOk(s, payer)
  {
    exists k :: 0 <= k < |slices| && SliceRefused(s, payer, p, k, slices[k])
  }

  predicate KeysAlike(s: State, s': State, key: Key) {
    FindKey(s'.txs, key).Some? <==> FindKey(s.txs, key).Some?
  }

  lemma {:induction false} SlicePayout(s: State, payer: Payer, p: TxId, index: nat, amount: int)
    requires PayerOk(s, payer)
    ensures var key := SweepSlice(payer.wallet, p, index, payer.minute);
            && (PayOut(s, payer, amount, key, Some(p)).Fail? <==> SliceRefused(s, payer, p, index, amount))
            && (PayOut(s, payer, amount, key, Some(p)).Ok? ==>
                  forall k: Key :: k != key && k != PayoutFee(key) ==>
                      KeysAlike(s, PayOut(s, payer, amount, key, Some(p)).value, k))
  {
    hide PayOutFee, PayNet, WithdrawalFee, FindKey, KeysAlike;
    var key, fee := SweepSlice(payer.wallet, p, index, payer.minute), FeeOfPayout(payer, amount);
    var s1 := if fee <= 0 then Ok(s) else PayOutFee(s, payer, fee, key, Some(p));
    if fee > 0 {
      FeeFailsExactly(s, payer, fee, key, Some(p));
      FeeKeys(s, payer, fee, key, Some(p));
    } else {
      SameKeys(s);
    }
    if s1.Ok? && amount > fee {
      NetFailsExactly(s1.value, payer, amount - fee, key, Some(p));
      NetKeys(s1.value, payer, amount - fee, key, Some(p));
      KeysThrough(s, s1.value);
    }
  }

  lemma {:induction false} SameKeys(s: State)
    ensures forall k: Key :: KeysAlike(s, s, k)
  {
    hide FindKey;
  }

  lemma {:induction false} KeysThrough(s: State, s1: State)
    ensures forall s2: State, k: Key :: KeysAlike(s, s1, k) && KeysAlike(s1, s2, k) ==> KeysAlike(s, s2, k)
  {
    hide FindKey;
  }

  lemma {:induction false} FeeKeys(s: State, payer: Payer, fee: int, key: Key, purchase: Option<TxId>)
    requires PayerOk(s, payer) && payer.feeRepository.Some?
    ensures PayOutFee(s, payer, fee, key, purchase).Ok? ==>
              forall k: Key :: k != PayoutFee(key) ==> KeysAlike(s, PayOutFee(s, payer, fee, key, purchase).value, k)
  {
    hide FindKey, Accepts, WalletToWallet;
    var row :=
        Row(Transfer, Completed, Some(payer.wallet), payer.feeRepository, fee, PayoutFee(key)).(related := purchase);
    forall k: Key | k != PayoutFee(key) ensures FindKey(s.txs + [row], k).Some? <==> FindKey(s.txs, k).Some? {
      FindKeySnoc(s.txs, row, k);
    }
  }

  lemma {:induction false} NetKeys(s: State, payer: Payer, net: int, key: Key, purchase: Option<TxId>)
    requires PayerOk(s, payer)
    ensures PayNet(s, payer, net, key, purchase).Ok? ==>
              forall k: Key :: k != key ==> KeysAlike(s, PayNet(s, payer, net, key, purchase).value, k)
  {
    hide FindKey, Accepts, Against;
    var cleared := payer.rail.None? || |s.txs| !in payer.failed;
    var row := Row(Withdraw, Completed, Some(payer.wallet), None, net, key).(related := purchase, cleared := cleared);
    forall k: Key | k != key ensures FindKey(s.txs + [row], k).Some? <==> FindKey(s.txs, k).Some? {
      FindKeySnoc(s.txs, row, k);
    }
  }

  /** A key of another purchase, or of a later slice. */
  predicate NotYetUsed(k: Key, p: TxId, n: nat) {
    && (k.SweepSlice? ==> k.purchase != p || k.index >= n)
    && (k.PayoutFee? && k.payout.SweepSlice? ==> k.payout.purchase != p || k.payout.index >= n)
  }

  lemma {:induction false} PaySlicesFailExactly(s: State, payer: Payer, p: TxId, slices: seq<int>)
    requires PayerOk(s, payer)
    ensures PaySlices(s, payer, p, slices).Fail? <==> SomeRefused(s, payer, p, slices)
    ensures PaySlices(s, payer, p, slices).Ok? ==>
              forall k: Key :: NotYetUsed(k, p, |slices|) ==> KeysAlike(s, PaySlices(s, payer, p, slices).value, k)
  {
    hide PayOut, SliceRefused, KeysAlike, NotYetUsed;
    if |slices| == 0 {
      SameKeys(s);
    } else {
      var n := |slices| - 1;
      var init := slices[..n];
      PaySlicesFailExactly(s, payer, p, init);
      var before := PaySlices(s, payer, p, init);
      if before.Ok? {
        SlicePayout(before.value, payer, p, n, slices[n]);
        SliceRefusedLater(s, before.value, payer, p, n, slices[n]);
        KeysThrough(s, before.value);
        LaterKeys(p, n, payer);
      }
    }
  }

  lemma {:induction false} LaterKeys(p: TxId, n: nat, payer: Payer)
    ensures var key := SweepSlice(payer.wallet, p, n, payer.minute);
            forall k: Key :: NotYetUsed(k, p, n + 1) ==> NotYetUsed(k, p, n) && k != key && k != PayoutFee(key)
  {
  }

  lemma {:induction false} SliceRefusedLater(s: State, s1: State, payer: Payer, p: TxId, n: nat, amount: int)
    requires PayerOk(s, payer) && s1.wallets == s.wallets
    requires forall k: Key :: NotYetUsed(k, p, n) ==> KeysAlike(s, s1, k)
    ensures SliceRefused(s1, payer, p, n, amount) <==> SliceRefused(s, payer, p, n, amount)
  {
    hide FindKey, WithdrawalFee;
    var key := SweepSlice(payer.wallet, p, n, payer.minute);
    assert NotYetUsed(key, p, n) && NotYetUsed(PayoutFee(key), p, n);
    assert KeysAlike(s, s1, key) && KeysAlike(s, s1, PayoutFee(key));
  }

  /** The sweep comes to the purchase and has the money for it. */
  predicate PaidNext(s: State, payer: Payer, p: TxId, balance: int)
    requires PayerOk(s, payer) && p < |s.txs|
  {
    var done := SweepPurchases(s, payer, p, balance);
    done.Ok? && Unsettled(s.txs[p], payer.wallet)
        && Sum(SlicesOf(s, p, payer.wallet), Identity()) <= done.value.remaining
  }

  predicate SomePurchaseRefused(s: State, payer: Payer, n: nat, balance: int)
    requires PayerOk(s, payer) && n <= |s.txs|
  {
    exists p :: 0 <= p < n && PaidNext(s, payer, p, balance) && SomeRefused(s, payer, p, SlicesOf(s, p, payer.wallet))
  }

  predicate NotSwept(k: Key, n: nat) {
    && (k.SweepSlice? ==> k.purchase >= n)
    && (k.PayoutFee? && k.payout.SweepSlice? ==> k.payout.purchase >= n)
  }

  /** What was swept before took no key of this purchase or a later one. */
  lemma {:induction false} SweptKeys(s: State, payer: Payer, n: nat, balance: int)
    requires PayerOk(s, payer) && n <= |s.txs| && SweepPurchases(s, payer, n, balance).Ok?
    ensures forall k: Key :: NotSwept(k, n) ==> KeysAlike(s, SweepPurchases(s, payer, n, balance).value.state, k)
  {
    hide PaySlices, SlicesOf, KeysAlike, NotSwept, SomeRefused;
    if n == 0 {
      SameKeys(s);
    } else {
      var p := n - 1;
      SweptKeys(s, payer, p, balance);
      var done := SweepPurchases(s, payer, p, balance).value;
      LaterPurchases(p);
      if PaidNext(s, payer, p, balance) {
        var slices := SlicesOf(s, p, payer.wallet);
        PaySlicesFailExactly(done.state, payer, p, slices);
        var s1 := PaySlices(done.state, payer, p, slices).value;
        MarkKeepsKeys(s1, p);
        KeysThrough(done.state, s1);
        KeysThrough(s, done.state);
        LaterThanSlices(p, |slices|);
      }
    }
  }

  /** A sweep throws if and only if it comes to a purchase one of whose slices is refused. */
  lemma {:induction false} SweepFailsExactly(s: State, payer: Payer, n: nat, balance: int)
    requires PayerOk(s, payer) && n <= |s.txs|
    ensures SweepPurchases(s, payer, n, balance).Fail? <==> SomePurchaseRefused(s, payer, n, balance)
  {
    hide PaySlices, SlicesOf, KeysAlike, NotSwept, SomeRefused;
    if n > 0 {
      var p := n - 1;
      SweepFailsExactly(s, payer, p, balance);
      var done := SweepPurchases(s, payer, p, balance);
      if done.Ok? && PaidNext(s, payer, p, balance) {
        var slices := SlicesOf(s, p, payer.wallet);
        SweptKeys(s, payer, p, balance);
        PaySlicesFailExactly(done.value.state, payer, p, slices);
        RefusedLater(s, done.value.state, payer, p, slices);
      }
    }
  }

  lemma {:induction false} LaterPurchases(p: nat)
    ensures forall k: Key :: NotSwept(k, p + 1) ==> NotSwept(k, p)
  {
  }

  lemma {:induction false} LaterThanSlices(p: nat, n: nat)
    ensures forall k: Key :: NotSwept(k, p + 1) ==> NotYetUsed(k, p, n)
  {
  }

  lemma {:induction false} MarkKeepsKeys(s: State, p: TxId)
    requires p < |s.txs|
    ensures var s1 := s.(txs := s.txs[p := s.txs[p].(settled := true)]); forall k: Key :: KeysAlike(s, s1, k)
  {
    hide FindKey;
    forall k: Key ensures FindKey(s.txs[p := s.txs[p].(settled := true)], k) == FindKey(s.txs, k) {
      FindKeyUpdate(s.txs, p, s.txs[p].(settled := true), k);
    }
  }

  lemma {:induction false} RefusedLater(s: State, s1: State, payer: Payer, p: TxId, slices: seq<int>)
    requires PayerOk(s, payer) && s1.wallets == s.wallets
    requires forall k: Key :: NotSwept(k, p) ==> KeysAlike(s, s1, k)
    ensures SomeRefused(s1, payer, p, slices) <==> SomeRefused(s, payer, p, slices)
  {
    hide FindKey, WithdrawalFee;
    forall k | 0 <= k < |slices|
      ensures SliceRefused(s1, payer, p, k, slices[k]) <==> SliceRefused(s, payer, p, k, slices[k])
    {
      var key := SweepSlice(payer.wallet, p, k, payer.minute);
      assert NotSwept(key, p) && NotSwept(PayoutFee(key), p);
      assert KeysAlike(s, s1, key) && KeysAlike(s, s1, PayoutFee(key));
    }
  }

  /** The sweep throws, after the payouts before were posted: the key of the net amount is taken, or it comes to a
      purchase one of whose slices is refused. */
  predicate SweepThrowsLate(s: State, w: WalletId, minute: nat, failed: set<TxId>) {
    && w < |s.wallets| && s.wallets[w].typ.supportsAutoWithdraw && Balance(s.journal, w) > 0
        && PayerFor(s, w, minute, failed).Ok?
    && var payer := PayerFor(s, w, minute, failed).value;
       if SplitMode(s, w) then SomePurchaseRefused(s, payer, |s.txs|, Balance(s.journal, w))
       else PayOutThrowsLate(s, payer, Balance(s.journal, w), Sweep(w, minute), None)
  }

  lemma {:induction false} SweepStopsLate(s: State, w: WalletId, minute: nat, failed: set<TxId>)
    requires SweepWallet(s, w, minute, failed).Fail? && SweepStop(s, w, minute, failed) != s.journal
    ensures SweepThrowsLate(s, w, minute, failed)
  {
    hide SplitMode, Balance, PayerFor, PayOut, SweepPurchases, PayOutStop, SweepPurchasesStop, SomePurchaseRefused,
      PayOutThrowsLate, PayOutRefused;
    var payer := PayerFor(s, w, minute, failed).value;
    if SplitMode(s, w) {
      SweepFailsExactly(s, payer, |s.txs|, Balance(s.journal, w));
    } else {
      PayOutFailsExactly(s, payer, Balance(s.journal, w), Sweep(w, minute), None);
    }
  }

  lemma {:induction false} CashAccepted(h: Holder, delta: int, cash: AccountCode)
    requires delta != 0 && cash != CreditReceivable
    ensures Accepts(Against(h, delta, cash))
  {
    hide Against, Accepts;
    AgainstEffect(h, delta, cash);
    AcceptsExactly(Against(h, delta, cash));
  }

  // ---- Every request ----

  /** The guards behind every leak: a request that throws for another reason, or is another one, leaves the feed right.
      */
  predicate ThrowsLate(s: State, op: Op) {
    match op
    case OpVerify(t, paid, now, today) =>
      && t < |s.txs| && s.txs[t].status == Awaiting && paid
          && (s.txs[t].expires.Some? ==> s.txs[t].expires.value >= now)
      && (if s.txs[t].completes.Some? then TopUpThrowsLate(s, t) else Chargeable(s, t) && RepaymentThrowsLate(s, t))
    case OpWriteOff(w, quit, key) => WriteOffThrowsLate(s, w, quit, key)
    case OpSweep(w, minute, failed) => SweepThrowsLate(s, w, minute, failed)
    case _ => false
  }

  lemma {:induction false} VerifyLeaksExactly(s: State, t: TxId, paid: bool, now: int, today: Today)
    requires Formed(s)
    ensures ThrowsLate(s, OpVerify(t, paid, now, today))
       <==> Verify(s, t, paid, now, today).Fail? && !SameBalances(s.journal, VerifyStop(s, t, paid, now))
  {
    hide Formed, CompleteTopUp, ReceiveMoney, Settle, TopUpThrowsLate, RepaymentThrowsLate, TopUpStop, ReceiveStop,
      Balance, RowOk;
    if t < |s.txs| {
      FormedRow(s, t);
      VerifiedRow(s, t);
      if s.txs[t].completes.Some? {
        TopUpLeaksExactly(s, t, today);
        if s.txs[t].status == Completed {
          CompletedLandsNothing(s, t);
        }
      } else if Chargeable(s, t) {
        RepaymentLeaksExactly(s, t);
      } else {
        PlainStop(s, t);
      }
    }
  }

  lemma {:induction false} VerifiedRow(s: State, t: TxId)
    requires t < |s.txs| && RowOk(|s.wallets|, |s.installments|, s.txs, t)
    ensures s.txs[t].amount > 0 && (s.txs[t].completes.Some? || IsRepayment(s.txs[t]) ==> s.txs[t].kind == Deposit)
    ensures s.txs[t].installment.Some? ==> s.txs[t].installment.value < |s.installments|
    ensures IsRepayment(s.txs[t]) && s.txs[t].to.Some? ==> Chargeable(s, t)
  {
  }

  lemma {:induction false} PlainStop(s: State, t: TxId)
    requires t < |s.txs| && !(IsRepayment(s.txs[t]) && s.txs[t].to.Some? && s.txs[t].to.value < |s.wallets|)
    ensures ReceiveStop(s, t) == s.journal
  {
  }

  lemma {:induction false} CompletedLandsNothing(s: State, t: TxId)
    requires t < |s.txs| && s.txs[t].completes.Some? && s.txs[t].status == Completed
    ensures SameBalances(s.journal, TopUpStop(s, t)) && !TopUpThrowsLate(s, t)
  {
    hide FindSupport, Balance;
  }

  /** A request that throws tells subscribers something untrue only if it throws late; and a verification that
      does always tells them something untrue. */
  lemma {:induction false} LeaksOnlyLate(s: State, op: Op)
    requires Formed(s)
    ensures (exists w: WalletId :: Leak(s, op, w) != 0) ==> ThrowsLate(s, op)
    ensures op.OpVerify? && ThrowsLate(s, op) ==> exists w: WalletId :: Leak(s, op, w) != 0
  {
    hide Formed, Verify, WriteOff, SweepWallet, VerifyStop, WriteOffStop, SweepStop, Absorb, SomeBlocked, Balance, Leak,
      SweepThrowsLate;
    if op.OpVerify? {
      VerifyLeaksExactly(s, op.tx, op.paid, op.now, op.today);
    } else if op.OpWriteOff? && Absorb(s, op.wallet, op.quit, op.key).Ok? {
      WriteOffFailsLateExactly(s, op.wallet, op.quit, op.key);
    }
    LeakMeans(s, op);
    if !ThrowsLate(s, op) {
      NotLate(s, op);
    }
  }

  lemma {:induction false} LeakMeans(s: State, op: Op)
    ensures (exists w: WalletId ::
        Leak(s, op, w) != 0) <==> Step(s, op).Fail? && !SameBalances(s.journal, StopAt(s, op))
  {
    hide Step, StopAt, Balance;
    if Step(s, op).Fail? && !SameBalances(s.journal, StopAt(s, op)) {
      var w: WalletId :| Balance(s.journal, w) != Balance(StopAt(s, op), w);
      assert Leak(s, op, w) != 0;
    }
  }

  lemma {:induction false} NotLate(s: State, op: Op)
    requires Formed(s) && !ThrowsLate(s, op)
    ensures Step(s, op).Fail? ==> SameBalances(s.journal, StopAt(s, op))
  {
    hide Formed, Verify, WriteOff, SweepWallet, VerifyStop, SweepStop, Absorb, SomeBlocked, Balance, TopUpThrowsLate,
      RepaymentThrowsLate, WithdrawFrom, TransferTo, Adjust, GrantCredit, CloseAndReclaim, Refund, ApplyPenalties,
      CheckDue, AttachWallet, OpenRepayment, OpenCollection, OpenTopUp, OpenDeposit, OpenPurchase, OpenCharge,
      SweepThrowsLate;
    if op.OpSweep? && SweepWallet(s, op.wallet, op.minute, op.failed).Fail? {
      if SweepStop(s, op.wallet, op.minute, op.failed) != s.journal {
        SweepStopsLate(s, op.wallet, op.minute, op.failed);
      }
    } else if op.OpVerify? {
      VerifyLeaksExactly(s, op.tx, op.paid, op.now, op.today);
    } else if op.OpWriteOff? && Absorb(s, op.wallet, op.quit, op.key).Ok? {
      WriteOffFailsLateExactly(s, op.wallet, op.quit, op.key);
    }
  }

  /** A run in which no request throws late. */
  predicate NoneLate(s: State, ops: seq<Op>) {
    |ops| > 0 ==> NoneLate(s, ops[..|ops| - 1]) && !ThrowsLate(Run(s, ops[..|ops| - 1]), ops[|ops| - 1])
  }

  /** Then a subscriber's fold is right about every wallet. */
  lemma {:induction false} FeedFollowsPunctualRuns(s: State, ops: seq<Op>, w: WalletId)
    requires Formed(s) && NoneLate(s, ops)
    ensures LeakOver(s, ops, w) == 0
  {
    hide Formed, Step, ThrowsLate, Leak;
    if |ops| > 0 {
      var init, op := ops[..|ops| - 1], ops[|ops| - 1];
      FeedFollowsPunctualRuns(s, init, w);
      FeedIsOffByLeaks(s, init, w);
      LeaksOnlyLate(Run(s, init), op);
    }
  }
}
