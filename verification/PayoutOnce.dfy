/** A purchase, once settled, stays settled whatever is requested; so no two sweeps pay it out. */
module PayoutOnce {
  import opened Common
  import opened Sums
  import opened Ledger
  import opened Installments
  import opened Settlement
  import opened Bank
  import opened BankInvariant
  import opened Payouts

  /** Rows are never removed, and a settled mark is never taken off. */
  predicate MarksStay(s: State, s': State) {
    |s.txs| <= |s'.txs| && forall p :: 0 <= p < |s.txs| && s.txs[p].settled ==> s'.txs[p].settled
  }

  lemma {:induction false} RouteMarks(s: State, main: WalletId, parts: seq<Part>, transfer: bool, prefix: SplitPrefix)
    ensures Route(s, main, parts, transfer, prefix).Ok?
        ==> MarksStay(s, Route(s, main, parts, transfer, prefix).value.state)
  {
    if |parts| > 0 {
      RouteMarks(s, main, parts[..|parts| - 1], transfer, prefix);
    }
  }

  lemma {:induction false} SettlingMarks(s: State, w: WalletId, n: nat, tx: TxId)
    requires n <= |s.installments|
    ensures SettleOutstanding(s, w, n, tx).Ok? ==> MarksStay(s, SettleOutstanding(s, w, n, tx).value)
  {
    hide ReceivableLegs, FindKey, Accepts;
    if n > 0 {
      SettlingMarks(s, w, n - 1, tx);
    }
  }

  lemma {:induction false} MarkAllPaidMarks(s: State, w: WalletId, tx: TxId)
    ensures MarkAllPaid(s, w, tx).Ok? ==> MarksStay(s, MarkAllPaid(s, w, tx).value)
  {
    hide SettleOutstanding;
    SettlingMarks(s, w, |s.installments|, tx);
  }

  lemma {:induction false} MarkPaidMarks(s: State, i: nat, tx: TxId)
    ensures MarkPaid(s, i, tx).Ok? ==> MarksStay(s, MarkPaid(s, i, tx).value)
  {
    hide ReceivableLegs, FindKey, Accepts;
  }

  lemma {:induction false} FundingMarks(s: State, p: TxId, support: Option<Funding>, today: Date)
    requires p < |s.txs| && s.txs[p].from.Some? && s.txs[p].from.value < |s.wallets| && OnCalendar(today)
    ensures FundPurchase(s, p, support, today).Ok? ==> MarksStay(s, FundPurchase(s, p, support, today).value)
  {
    hide ReceivableLegs, FindKey, Accepts, Schedule, PlanRows, Balance;
  }

  lemma {:induction false} SettleMarks(s: State, p: TxId, support: Option<Funding>, today: Date)
    requires p < |s.txs| && s.txs[p].from.Some? && s.txs[p].to.Some?
    requires s.txs[p].from.value < |s.wallets| && s.txs[p].to.value < |s.wallets|
    requires support.Some? ==> support.value.wallet < |s.wallets|
    requires OnCalendar(today)
    ensures Settle(s, p, support, today).Ok? ==> MarksStay(s, Settle(s, p, support, today).value)
  {
    hide FundPurchase, Accepts, Balance;
    FundingMarks(s, p, support, today);
  }

  lemma {:induction false} TopUpMarks(s: State, t: TxId, today: Date)
    requires t < |s.txs| && s.txs[t].completes.Some? && OnCalendar(today)
    ensures CompleteTopUp(s, t, today).Ok? ==> MarksStay(s, CompleteTopUp(s, t, today).value)
  {
    hide Settle, Accepts;
    if CompleteTopUp(s, t, today).Ok? {
      var p := s.txs[t].completes.value;
      var from := s.wallets[s.txs[p].from.value];
      var (s1, support) := LandTopUp(s, t, from.user, from.typ.currency).value;
      assert MarksStay(s, s1);
      if s.txs[p].status != Completed {
        SettleMarks(s1, p, Some(Funding(support, s.txs[t].amount)), today);
      }
    }
  }

  lemma {:induction false} ReceiveMarks(s: State, t: TxId)
    requires t < |s.txs|
    ensures ReceiveMoney(s, t).Ok? ==> MarksStay(s, ReceiveMoney(s, t).value)
  {
    hide MarkPaid, MarkAllPaid, Route, PayIn, Accepts, ChargeOf;
    if ReceiveMoney(s, t).Ok? && IsRepayment(s.txs[t]) {
      var tx := s.txs[t];
      var s1 := LandRepayment(s, t, tx.to.value).value;
      LandMarks(s, t, tx.to.value);
      var s2 := if tx.installment.Some? then MarkPaid(s1, tx.installment.value, t).value else s1;
      if tx.installment.Some? {
        MarkPaidMarks(s1, tx.installment.value, t);
      }
      if tx.settles.Some? {
        MarkAllPaidMarks(s2, tx.settles.value, t);
      }
    }
  }

  lemma {:induction false} LandMarks(s: State, t: TxId, main: WalletId)
    requires t < |s.txs| && main < |s.wallets| && IsRepayment(s.txs[t])
    ensures LandRepayment(s, t, main).Ok? ==> MarksStay(s, LandRepayment(s, t, main).value)
  {
    hide Route, Accepts, ChargeOf;
    if ChargeableAt(s, t) && ChargeOf(s, t).Ok? {
      RouteMarks(s, main, ChargeOf(s, t).value.parts, false, OfRepayment(t));
    }
  }

  predicate ChargeableAt(s: State, t: TxId)
    requires t < |s.txs|
  {
    s.txs[t].installment.Some? ==> s.txs[t].installment.value < |s.installments|
  }

  lemma {:induction false} VerifyMarks(s: State, t: TxId, paid: bool, now: int, today: Date)
    requires OnCalendar(today)
    ensures Verify(s, t, paid, now, today).Ok? ==> MarksStay(s, Verify(s, t, paid, now, today).value)
  {
    hide CompleteTopUp, ReceiveMoney, Settle;
    if t < |s.txs| && Verify(s, t, paid, now, today).Ok? {
      if s.txs[t].completes.Some? {
        TopUpMarks(s, t, today);
      }
      ReceiveMarks(s, t);
      if s.txs[t].from.Some? && s.txs[t].to.Some? && s.txs[t].from.value < |s.wallets|
          && s.txs[t].to.value < |s.wallets| {
        SettleMarks(s, t, None, today);
      }
    }
  }

  lemma {:induction false} WriteOffMarks(s: State, w: WalletId, quit: bool, key: string)
    ensures WriteOff(s, w, quit, key).Ok? ==> MarksStay(s, WriteOff(s, w, quit, key).value)
  {
    hide Route, MarkAllPaid, Accepts, FindKey, Parts, RepaymentSplit, OutstandingRows, Balance;
    if WriteOff(s, w, quit, key).Ok? {
      var wallet := s.wallets[w];
      var r, split := wallet.repository.value, RepaymentSplit(OutstandingRows(s.installments, w));
      var unblockFee := if quit then 0 else wallet.typ.terms.unblockFee;
      var prefix := if quit then OfQuit(key) else OfOverdue(key);
      var parts := Parts(wallet.typ.terms, split.fee, split.penalty, unblockFee);
      RouteMarks(s, r, parts, true, prefix);
      var routed := Route(s, r, parts, true, prefix).value;
      var total := split.fee + split.penalty + unblockFee;
      var s1 := Insert(routed.state, Row(Adjustment, Completed, Some(r), None, total, Client(key))).value;
      var s2 := PostAbsorbed(s1, |routed.state.txs|, r, total - routed.unrouted, routed.legs).value;
      MarkAllPaidMarks(s2, w, |routed.state.txs|);
    }
  }

  lemma {:induction false} UnwindMarks(s: State, p: TxId, customer: WalletId, r: WalletId, unpaid: int, givesBack: bool)
    requires customer < |s.wallets|
    ensures UnwindCredit(s, p, customer, r, unpaid, givesBack).Ok? ==>
              MarksStay(s, UnwindCredit(s, p, customer, r, unpaid, givesBack).value)
  {
    hide FindKey, Accepts, ReceivableLegs, CancelPlan;
  }

  lemma {:induction false} RefundMarks(s: State, user: nat, p: TxId, key: string)
    ensures Refund(s, user, p, key).Ok? ==> MarksStay(s, Refund(s, user, p, key).value)
  {
    hide FindKey, Accepts, Balance, UnpaidDraw, FundingRepository, UnwindCredit, OwnsEitherSide, MultiLegs;
    if Refund(s, user, p, key).Ok? && s.txs[p].status == Completed {
      var customer := s.txs[p].from.value;
      var unpaid := UnpaidDraw(s, p);
      var givesBack := FindKey(s.txs, CreditFund(p)).Some? && unpaid > 0;
      UnwindMarks(s, p, customer, FundingRepository(s, p, customer), unpaid, givesBack);
    }
  }

  lemma {:induction false} PaySlicesMarks(s: State, payer: Payer, p: TxId, slices: seq<int>)
    requires payer.wallet < |s.wallets| && (payer.feeRepository.Some? ==> payer.feeRepository.value < |s.wallets|)
    ensures PaySlices(s, payer, p, slices).Ok? ==> MarksStay(s, PaySlices(s, payer, p, slices).value)
  {
    hide PayOut;
  }

  lemma {:induction false} SweepingMarks(s: State, payer: Payer, n: nat, balance: int)
    requires payer.wallet < |s.wallets| && (payer.feeRepository.Some? ==> payer.feeRepository.value < |s.wallets|)
    requires n <= |s.txs|
    ensures SweepPurchases(s, payer, n, balance).Ok? ==> MarksStay(s, SweepPurchases(s, payer, n, balance).value.state)
  {
    hide PaySlices, SlicesOf;
    if n > 0 {
      SweepingMarks(s, payer, n - 1, balance);
    }
  }

  lemma {:induction false} SweepMarks(s: State, w: WalletId, minute: nat, failed: set<TxId>)
    ensures SweepWallet(s, w, minute, failed).Ok? ==> MarksStay(s, SweepWallet(s, w, minute, failed).value)
  {
    hide SweepPurchases, PayOut, SplitMode, Balance, PayerFor;
    if w < |s.wallets| && PayerFor(s, w, minute, failed).Ok? {
      SweepingMarks(s, PayerFor(s, w, minute, failed).value, |s.txs|, Balance(s.journal, w));
    }
  }

  lemma {:induction false} MoveMarks(s: State, op: Op)
    requires op.OpWithdraw? || op.OpTransfer? || op.OpAdjust?
    requires Step(s, op).Ok?
    ensures MarksStay(s, Step(s, op).value)
  {
    hide FindKey, Accepts, Balance, Against, WalletToWallet, RepositoryCanFund, LedgerHolder, CashAccount;
  }

  lemma {:induction false} OpenMarks(s: State, op: Op)
    requires op.OpDeposit? || op.OpPurchase? || op.OpCharge? || op.OpAttach? || op.OpRepay? || op.OpCollect?
    requires Step(s, op).Ok?
    ensures MarksStay(s, Step(s, op).value)
  {
    hide FindKey, OutstandingRows, ValidChargeOverrides, StoredRows;
  }

  lemma {:induction false} GrantMarks(s: State, op: Op)
    requires op.OpTopUp? || op.OpExpire? || op.OpGrant? || op.OpReclaim? || op.OpClose? || op.OpReopen?
             || op.OpPenalties? || op.OpDueCheck? || op.OpDefaults?
    requires Step(s, op).Ok?
    ensures MarksStay(s, Step(s, op).value)
  {
    hide FindKey, OutstandingRows, Balance, TooLate, AccrueRow, DueRow, Attempts;
  }

  lemma {:induction false} StepKeepsMarks(s: State, op: Op)
    requires Step(s, op).Ok?
    ensures MarksStay(s, Step(s, op).value)
  {
    if op.OpVerify? || op.OpWriteOff? || op.OpRefund? || op.OpSweep? {
      hide Verify, WriteOff, Refund, SweepWallet, MarksStay;
      match op
      case OpVerify(t, paid, now, today) => VerifyMarks(s, t, paid, now, today);
      case OpWriteOff(w, quit, key) => WriteOffMarks(s, w, quit, key);
      case OpRefund(user, p, key) => RefundMarks(s, user, p, key);
      case OpSweep(w, minute, failed) => SweepMarks(s, w, minute, failed);
    } else {
      hide Step, MarksStay;
      if op.OpWithdraw? || op.OpTransfer? || op.OpAdjust? {
        MoveMarks(s, op);
      } else if op.OpDeposit? || op.OpPurchase? || op.OpCharge? || op.OpAttach? || op.OpRepay? || op.OpCollect? {
        OpenMarks(s, op);
      } else {
        GrantMarks(s, op);
      }
    }
  }

  lemma {:induction false} RunKeepsMarks(s: State, ops: seq<Op>)
    ensures MarksStay(s, Run(s, ops))
  {
    hide Step;
    if |ops| > 0 {
      RunKeepsMarks(s, ops[..|ops| - 1]);
      if Step(Run(s, ops[..|ops| - 1]), ops[|ops| - 1]).Ok? {
        StepKeepsMarks(Run(s, ops[..|ops| - 1]), ops[|ops| - 1]);
      }
    }
  }

  // ---- What the rows of a sweep pay for ----

  /** The rows appended between `s` and `s'` pay for `purchase`. */
  predicate AllFor(s: State, s': State, purchase: Option<TxId>) {
    |s.txs| <= |s'.txs| && forall i :: |s.txs| <= i < |s'.txs| ==> s'.txs[i].related == purchase
  }

  lemma {:induction false} FeeFor(s: State, payer: Payer, fee: int, key: Key, purchase: Option<TxId>)
    requires payer.wallet < |s.wallets| && payer.feeRepository.Some? && payer.feeRepository.value < |s.wallets|
    requires PayOutFee(s, payer, fee, key, purchase).Ok?
    ensures AllFor(s, PayOutFee(s, payer, fee, key, purchase).value, purchase)
  {
    hide FindKey, Accepts, WalletToWallet;
  }

  lemma {:induction false} NetFor(s: State, payer: Payer, net: int, key: Key, purchase: Option<TxId>)
    requires payer.wallet < |s.wallets|
    requires PayNet(s, payer, net, key, purchase).Ok?
    ensures AllFor(s, PayNet(s, payer, net, key, purchase).value, purchase)
  {
    hide FindKey, Accepts, Against;
  }

  lemma {:induction false} PayOutFor(s: State, payer: Payer, amount: int, key: Key, purchase: Option<TxId>)
    requires payer.wallet < |s.wallets| && (payer.feeRepository.Some? ==> payer.feeRepository.value < |s.wallets|)
    ensures PayOut(s, payer, amount, key, purchase).Ok?
        ==> AllFor(s, PayOut(s, payer, amount, key, purchase).value, purchase)
  {
    hide PayOutFee, PayNet, WithdrawalFee;
    if PayOut(s, payer, amount, key, purchase).Ok? {
      var fee := if payer.feeRepository.Some? then WithdrawalFee(payer.rate, amount) else 0;
      var s1 := if fee > 0 then PayOutFee(s, payer, fee, key, purchase).value else s;
      if fee > 0 {
        FeeFor(s, payer, fee, key, purchase);
      }
      if amount > fee {
        NetFor(s1, payer, amount - fee, key, purchase);
      }
    }
  }

  lemma {:induction false} PaySlicesFor(s: State, payer: Payer, p: TxId, slices: seq<int>)
    requires payer.wallet < |s.wallets| && (payer.feeRepository.Some? ==> payer.feeRepository.value < |s.wallets|)
    ensures PaySlices(s, payer, p, slices).Ok? ==> AllFor(s, PaySlices(s, payer, p, slices).value, Some(p))
  {
    hide PayOut;
    if |slices| > 0 && PaySlices(s, payer, p, slices).Ok? {
      var n := |slices| - 1;
      PaySlicesFor(s, payer, p, slices[..n]);
      var s1 := PaySlices(s, payer, p, slices[..n]).value;
      PayOutFor(s1, payer, slices[n], SweepSlice(payer.wallet, p, n, payer.minute), Some(p));
    }
  }

  /** Every row a split-mode sweep appends pays for a purchase that was unsettled before and is settled
      after. */
  ghost predicate PaysForMarked(s: State, s': State, w: WalletId) {
    && |s.txs| <= |s'.txs|
    && forall i :: |s.txs| <= i < |s'.txs| ==>
         var p := s'.txs[i].related;
         p.Some? && p.value < |s.txs| && Unsettled(s.txs[p.value], w) && s'.txs[p.value].settled
  }

  lemma {:induction false} SweptRowsPay(s: State, payer: Payer, n: nat, balance: int)
    requires payer.wallet < |s.wallets| && (payer.feeRepository.Some? ==> payer.feeRepository.value < |s.wallets|)
    requires n <= |s.txs|
    ensures SweepPurchases(s, payer, n, balance).Ok? ==>
              PaysForMarked(s, SweepPurchases(s, payer, n, balance).value.state, payer.wallet)
  {
    hide PaySlices, SlicesOf;
    if n > 0 && SweepPurchases(s, payer, n, balance).Ok? {
      SweptRowsPay(s, payer, n - 1, balance);
      var p, done := n - 1, SweepPurchases(s, payer, n - 1, balance).value;
      var slices := SlicesOf(s, p, payer.wallet);
      if Unsettled(s.txs[p], payer.wallet) && Sum(slices, Identity()) <= done.remaining {
        PaySlicesFor(done.state, payer, p, slices);
        PaySlicesMarks(done.state, payer, p, slices);
      }
    }
  }

  /** No sweep pays for a purchase that is settled already. */
  lemma {:induction false} SettledIsNotPaidFor(s: State, w: WalletId, minute: nat, failed: set<TxId>, p: TxId)
    requires p < |s.txs| && s.txs[p].settled && SweepWallet(s, w, minute, failed).Ok?
    ensures var s' := SweepWallet(s, w, minute, failed).value;
            |s.txs| <= |s'.txs| && forall i :: |s.txs| <= i < |s'.txs| ==> s'.txs[i].related != Some(p)
  {
    hide SweepPurchases, PayOut, SplitMode, Balance, PayerFor;
    if Balance(s.journal, w) > 0 {
      var payer := PayerFor(s, w, minute, failed).value;
      if SplitMode(s, w) {
        SweptRowsPay(s, payer, |s.txs|, Balance(s.journal, w));
      } else {
        PayOutFor(s, payer, Balance(s.journal, w), Sweep(w, minute), None);
      }
    }
  }

  /** No purchase is paid out by two sweeps: whatever is requested after the sweep that settled it, no
      later sweep of any wallet appends a row for it or marks it again. */
  lemma {:induction false} SettledOnce(s: State, first: WalletId, minute: nat, failed: set<TxId>, between: seq<Op>,
                                       second: WalletId, later: nat, laterFailed: set<TxId>, p: TxId)
    requires SweepWallet(s, first, minute, failed).Ok?
        && NewlySettled(s, SweepWallet(s, first, minute, failed).value, p)
    requires SweepWallet(Run(SweepWallet(s, first, minute, failed).value, between), second, later, laterFailed).Ok?
    ensures var s1 := Run(SweepWallet(s, first, minute, failed).value, between);
            var s2 := SweepWallet(s1, second, later, laterFailed).value;
            && !NewlySettled(s1, s2, p)
            && forall i :: |s1.txs| <= i < |s2.txs| ==> s2.txs[i].related != Some(p)
  {
    hide SweepWallet, Run;
    var s1 := Run(SweepWallet(s, first, minute, failed).value, between);
    RunKeepsMarks(SweepWallet(s, first, minute, failed).value, between);
    SettledIsNotPaidFor(s1, second, later, laterFailed, p);
  }
}
