/** Requests that move money elsewhere: they leave the purchases, and what was posted for them, alone. */
module Elsewhere {
  import opened Common
  import opened Ledger
  import opened Settlement
  import opened Installments
  import opened Bank
  import opened Payouts
  import opened Repayments

  /** The entry is for a row, and moves no money for a purchase. */
  predicate PostedAside(txs: seq<Tx>, e: Entry) {
    e.tx < |txs| && (txs[e.tx].kind == Purchase ==> !MovesMoney(e))
  }

  /** Purchases keep their rows but for the settled mark, new ones are charges nobody paid yet, and no money was
      posted for any of them. */
  predicate Aside(s: State, s': State) {
    && |s.txs| <= |s'.txs| && s.journal <= s'.journal
    && (forall t :: 0 <= t < |s.txs| ==> s'.txs[t].kind == s.txs[t].kind)
    && (forall t :: 0 <= t < |s.txs| && s.txs[t].kind == Purchase ==>
        s'.txs[t] == s.txs[t].(settled := s'.txs[t].settled))
    && (forall t :: |s.txs| <= t < |s'.txs| && s'.txs[t].kind == Purchase ==>
          s'.txs[t].related.None? && s'.txs[t].status == Awaiting)
    && (forall k :: |s.journal| <= k < |s'.journal| ==> PostedAside(s'.txs, s'.journal[k]))
  }

  lemma {:induction false} AsideThrough(a: State, b: State, c: State)
    requires Aside(a, b) && Aside(b, c)
    ensures Aside(a, c)
  {
    hide MovesMoney;
    forall k | |a.journal| <= k < |c.journal| ensures PostedAside(c.txs, c.journal[k]) {
      if k < |b.journal| {
        assert PostedAside(b.txs, b.journal[k]) && c.journal[k] == b.journal[k];
      }
    }
  }

  lemma {:induction false} NothingAside(s: State, s': State)
    requires s'.txs == s.txs && s'.journal == s.journal
    ensures Aside(s, s')
  {
  }

  lemma {:induction false} InsertAside(s: State, t: Tx)
    requires t.kind != Purchase || (t.related.None? && t.status == Awaiting)
    ensures Insert(s, t).Ok? ==> Aside(s, Insert(s, t).value)
  {
    hide FindKey;
  }

  lemma {:induction false} PostIsAside(s: State, tx: TxId, legs: seq<Leg>)
    requires PostedAside(s.txs, Entry(tx, legs))
    ensures Post(s, tx, legs).Ok? ==> Aside(s, Post(s, tx, legs).value)
  {
    hide Accepts, MovesMoney;
  }

  lemma {:induction false} TrackedAside(s: State, tx: TxId, w: WalletId, delta: int)
    requires tx < |s.txs| && w < |s.wallets|
    ensures PostReceivable(s, tx, w, delta).Ok? ==>
              Aside(s, PostReceivable(s, tx, w, delta).value)
                  && PostReceivable(s, tx, w, delta).value.wallets == s.wallets
  {
    hide Accepts;
    if delta != 0 {
      assert !MovesMoney(Entry(tx, ReceivableLegs(Own(s, w), delta)));
      PostIsAside(s, tx, ReceivableLegs(Own(s, w), delta));
    } else {
      NothingAside(s, s);
    }
  }

  lemma {:induction false} MirrorAside(s: State, tx: TxId, w: WalletId, delta: int)
    requires tx < |s.txs| && s.txs[tx].kind != Purchase && w < |s.wallets|
    ensures Mirror(s, tx, w, delta).Ok? ==> Aside(s, Mirror(s, tx, w, delta).value)
  {
    hide Accepts, Against;
    PostIsAside(s, tx, Against(Own(s, w), delta, RepositoryAllocations));
    NothingAside(s, s);
  }

  /** A new row, its entry, and the mirror of a repository-backed wallet. */
  lemma {:induction false} RowThenPost(s: State, row: Tx, legs: seq<Leg>)
    requires row.kind != Purchase && Insert(s, row).Ok?
    ensures Post(Insert(s, row).value, |s.txs|, legs).Ok? ==> Aside(s, Post(Insert(s, row).value, |s.txs|, legs).value)
  {
    hide Accepts, FindKey, Aside;
    InsertAside(s, row);
    var s1 := Insert(s, row).value;
    PostIsAside(s1, |s.txs|, legs);
    if Post(s1, |s.txs|, legs).Ok? {
      AsideThrough(s, s1, Post(s1, |s.txs|, legs).value);
    }
  }

  lemma {:induction false} WithdrawAside(s: State, user: nat, w: WalletId, amount: int, cleared: bool, key: string)
    requires WithdrawFrom(s, user, w, amount, cleared, key).Ok?
    ensures Aside(s, WithdrawFrom(s, user, w, amount, cleared, key).value)
  {
    hide FindKey, Accepts, Balance, Against, Aside, Mirror;
    var row := Row(Withdraw, Completed, Some(w), None, amount, Client(key)).(cleared := cleared);
    var s1 := Insert(s, row).value;
    var legs := Against(LedgerHolder(s1, w).value, -amount, CashAccount(cleared));
    RowThenPost(s, row, legs);
    var s2 := Post(s1, |s.txs|, legs).value;
    MirrorAside(s2, |s.txs|, w, -amount);
    AsideThrough(s, s2, WithdrawFrom(s, user, w, amount, cleared, key).value);
  }

  lemma {:induction false} TransferAside(s: State, user: nat, from: WalletId, to: WalletId, amount: int, key: string)
    requires TransferTo(s, user, from, to, amount, key).Ok?
    ensures Aside(s, TransferTo(s, user, from, to, amount, key).value)
  {
    hide FindKey, Accepts, Balance, WalletToWallet, Aside, Mirror;
    var row := Row(Transfer, Completed, Some(from), Some(to), amount, Client(key));
    var s1 := Insert(s, row).value;
    var legs := WalletToWallet(LedgerHolder(s1, from).value, Own(s1, to), amount);
    RowThenPost(s, row, legs);
    var s2 := Post(s1, |s.txs|, legs).value;
    MirrorAside(s2, |s.txs|, from, -amount);
    AsideThrough(s, s2, TransferTo(s, user, from, to, amount, key).value);
  }

  lemma {:induction false} AdjustAside(s: State, w: WalletId, amount: int, key: string)
    requires Adjust(s, w, amount, key).Ok?
    ensures Aside(s, Adjust(s, w, amount, key).value)
  {
    hide FindKey, Accepts, Balance, Against, Aside;
    var row := Row(Adjustment, Completed, if amount < 0 then Some(w) else None, if amount >= 0 then Some(w) else None,
                   Abs(amount), Client(key));
    RowThenPost(s, row, Against(Own(Insert(s, row).value, w), amount, LedgerAdjustments));
  }

  // ---- Slices, settled installments ----

  lemma {:induction false} RouteAside(s: State, main: WalletId, parts: seq<Part>, transfer: bool, prefix: SplitPrefix)
    requires Route(s, main, parts, transfer, prefix).Ok?
    ensures Aside(s, Route(s, main, parts, transfer, prefix).value.state)
  {
    hide Aside, FindKey;
    if |parts| == 0 {
      NothingAside(s, s);
    } else {
      var part := parts[|parts| - 1];
      RouteAside(s, main, parts[..|parts| - 1], transfer, prefix);
      var r := Route(s, main, parts[..|parts| - 1], transfer, prefix).value;
      var row := Row(if transfer then Transfer else Deposit, Completed, if transfer then Some(main) else None,
                     part.target, part.amount, SliceKey(prefix, part.slice));
      InsertAside(r.state, row);
      NothingAside(r.state, r.state);
      AsideThrough(s, r.state, Route(s, main, parts, transfer, prefix).value.state);
    }
  }

  lemma {:induction false} SettleOneAside(s: State, i: nat, tx: TxId)
    requires i < |s.installments| && tx < |s.txs| && SettleOne(s, i, tx).Ok?
    ensures Aside(s, SettleOne(s, i, tx).value) && |SettleOne(s, i, tx).value.txs| >= |s.txs|
  {
    hide FindKey, PostReceivable;
    var row := s.installments[i];
    var s1 := s.(installments := s.installments[i := row.(status := Paid)]);
    NothingAside(s, s1);
    if row.wallet < |s.wallets| {
      TrackedAside(s1, tx, row.wallet, -row.principal);
      var s2 := PostReceivable(s1, tx, row.wallet, -row.principal).value;
      var s3 := SetVirtual(s2, row.wallet, s2.wallets[row.wallet].virtualAmount + row.principal);
      InsertAside(s3, Row(Virtual, Completed, None, Some(row.wallet), row.principal, InstallmentRestore(i)));
      NothingAside(s2, s3);
      AsideThrough(s, s1, s2);
      AsideThrough(s, s2, s3);
      AsideThrough(s, s3, SettleOne(s, i, tx).value);
    }
  }

  lemma {:induction false} SettlingAside(s: State, w: WalletId, n: nat, tx: TxId)
    requires n <= |s.installments| && tx < |s.txs| && SettleOutstanding(s, w, n, tx).Ok?
    ensures Aside(s, SettleOutstanding(s, w, n, tx).value) && |SettleOutstanding(s, w, n, tx).value.txs| >= |s.txs|
  {
    hide SettleOne, Aside;
    NothingAside(s, s);
    if n > 0 {
      SettlingAside(s, w, n - 1, tx);
      var s1 := SettleOutstanding(s, w, n - 1, tx).value;
      if n <= |s1.installments| && s1.installments[n - 1].wallet == w && Unpaid(s1.installments[n - 1]) {
        SettleOneAside(s1, n - 1, tx);
        AsideThrough(s, s1, SettleOne(s1, n - 1, tx).value);
      }
    }
  }

  lemma {:induction false} MarkAllPaidAside(s: State, w: WalletId, tx: TxId)
    requires tx < |s.txs| && MarkAllPaid(s, w, tx).Ok?
    ensures Aside(s, MarkAllPaid(s, w, tx).value)
  {
    hide SettleOutstanding, Aside;
    SettlingAside(s, w, |s.installments|, tx);
    var s1 := SettleOutstanding(s, w, |s.installments|, tx).value;
    NothingAside(s1, MarkAllPaid(s, w, tx).value);
    AsideThrough(s, s1, MarkAllPaid(s, w, tx).value);
  }

  lemma {:induction false} MarkPaidAside(s: State, i: nat, tx: TxId)
    requires tx < |s.txs| && MarkPaid(s, i, tx).Ok?
    ensures Aside(s, MarkPaid(s, i, tx).value) && |MarkPaid(s, i, tx).value.txs| >= |s.txs|
  {
    hide SettleOne, Aside;
    NothingAside(s, s);
    if i < |s.installments| {
      SettleOneAside(s, i, tx);
      var s1 := SettleOne(s, i, tx).value;
      NothingAside(s1, MarkPaid(s, i, tx).value);
      AsideThrough(s, s1, MarkPaid(s, i, tx).value);
    }
  }

  lemma {:induction false} WriteOffAside(s: State, w: WalletId, quit: bool, key: string)
    requires WriteOff(s, w, quit, key).Ok?
    ensures Aside(s, WriteOff(s, w, quit, key).value)
  {
    hide Route, MarkAllPaid, Accepts, FindKey, Parts, RepaymentSplit, OutstandingRows, Balance, Aside, IsRouted,
      MultiLegs;
    var r, parts, s2 := AbsorbTables(s, w, quit, key);
    var main, n := s.wallets[w].repository.value, |r.state.txs|;
    var split := RepaymentSplit(OutstandingRows(s.installments, w));
    var total := split.fee + split.penalty + if quit then 0 else s.wallets[w].typ.terms.unblockFee;
    var row := Row(Adjustment, Completed, Some(main), None, total, Client(key));
    var s1 := r.state.(txs := r.state.txs + [row]);
    RouteAside(s, main, parts, true, if quit then OfQuit(key) else OfOverdue(key));
    InsertAside(r.state, row);
    NothingAside(s1, s1);
    PostIsAside(s1, n, MultiLegs([Movement(Own(s1, main), total - r.unrouted)], r.legs));
    AsideThrough(s, r.state, s1);
    AsideThrough(s, s1, s2);
    MarkAllPaidAside(s2, w, n);
    AsideThrough(s, s2, WriteOff(s, w, quit, key).value);
  }

  // ---- Deposits and repayments ----

  /** Completing a deposit row, or shrinking it to what reached the repository. */
  lemma {:induction false} RowAside(s: State, t: TxId, row: Tx)
    requires t < |s.txs| && s.txs[t].kind != Purchase && row.kind == s.txs[t].kind
    ensures Aside(s, s.(txs := s.txs[t := row]))
  {
  }

  lemma {:induction false} LandAside(s: State, t: TxId, main: WalletId)
    requires t < |s.txs| && main < |s.wallets| && IsRepayment(s.txs[t]) && s.txs[t].kind == Deposit
        && LandRepayment(s, t, main).Ok?
    ensures Aside(s, LandRepayment(s, t, main).value) && t < |LandRepayment(s, t, main).value.txs|
  {
    hide Route, Accepts, ChargeOf, Aside, CashInLegs;
    var tx, s' := s.txs[t], LandRepayment(s, t, main).value;
    if tx.installment.Some? && tx.installment.value >= |s.installments| {
      RowAside(s, t, tx.(status := Completed));
    } else {
      var charge := ChargeOf(s, t).value;
      RouteSplits(s, main, charge.parts, false, OfRepayment(t));
      RouteAside(s, main, charge.parts, false, OfRepayment(t));
      var r := Route(s, main, charge.parts, false, OfRepayment(t)).value;
      var legs := CashInLegs(BankCash, s.wallets[main].typ.currency, tx.amount,
                             [Movement(Own(s, main), charge.principal + r.unrouted)] + r.legs);
      PostIsAside(r.state, t, legs);
      var s1 := Post(r.state, t, legs).value;
      AsideThrough(s, r.state, s1);
      var shrunk := s1.txs[t].(amount := charge.principal + r.unrouted);
      RowAside(s1, t, shrunk);
      AsideThrough(s, s1, s1.(txs := s1.txs[t := shrunk]));
      RowAside(s1.(txs := s1.txs[t := shrunk]), t, shrunk.(status := Completed));
      AsideThrough(s, s1.(txs := s1.txs[t := shrunk]), s');
    }
  }

  lemma {:induction false} PayInAside(s: State, t: TxId, w: WalletId, amount: int)
    requires t < |s.txs| && s.txs[t].kind != Purchase && w < |s.wallets| && PayIn(s, t, w, amount).Ok?
    ensures Aside(s, PayIn(s, t, w, amount).value)
  {
    hide Accepts, Against, Aside, Mirror;
    var legs := Against(LedgerHolder(s, w).value, amount, BankCash);
    PostIsAside(s, t, legs);
    var s1 := Post(s, t, legs).value;
    MirrorAside(s1, t, w, amount);
    AsideThrough(s, s1, PayIn(s, t, w, amount).value);
  }

  lemma {:induction false} ReceiveAside(s: State, t: TxId)
    requires t < |s.txs| && s.txs[t].kind == Deposit && ReceiveMoney(s, t).Ok?
    ensures Aside(s, ReceiveMoney(s, t).value)
  {
    hide LandRepayment, PayIn, MarkPaid, MarkAllPaid, Aside;
    var tx, s' := s.txs[t], ReceiveMoney(s, t).value;
    if IsRepayment(tx) {
      LandAside(s, t, tx.to.value);
      var s1 := LandRepayment(s, t, tx.to.value).value;
      NothingAside(s1, s1);
      var s2 := if tx.installment.Some? then MarkPaid(s1, tx.installment.value, t).value else s1;
      if tx.installment.Some? {
        MarkPaidAside(s1, tx.installment.value, t);
      }
      AsideThrough(s, s1, s2);
      if tx.settles.Some? {
        MarkAllPaidAside(s2, tx.settles.value, t);
        AsideThrough(s, s2, s');
      }
    } else {
      PayInAside(s, t, tx.to.value, tx.amount);
      var s1 := PayIn(s, t, tx.to.value, tx.amount).value;
      RowAside(s1, t, s1.txs[t].(status := Completed));
      AsideThrough(s, s1, s');
    }
  }

  // ---- Payout sweeps ----

  lemma {:induction false} PayOutAside(s: State, payer: Payer, amount: int, key: Key, purchase: Option<TxId>)
    requires PayerOk(s, payer) && PayOut(s, payer, amount, key, purchase).Ok?
    ensures Aside(s, PayOut(s, payer, amount, key, purchase).value)
  {
    hide Accepts, FindKey, Against, WalletToWallet, WithdrawalFee, Aside;
    NothingAside(s, s);
    var fee := FeeOfPayout(payer, amount);
    if fee > 0 {
      var w, target := payer.wallet, payer.feeRepository.value;
      RowThenPost(s, Row(Transfer, Completed, Some(w), Some(target), fee, PayoutFee(key)).(related := purchase),
                  WalletToWallet(Own(s, w), Own(s, target), fee));
    }
    var s1 := if fee > 0 then PayOutFee(s, payer, fee, key, purchase).value else s;
    if amount > fee {
      var cleared := payer.rail.None? || |s1.txs| !in payer.failed;
      RowThenPost(s1,
          Row(Withdraw, Completed, Some(payer.wallet), None, amount - fee, key)
            .(related := purchase, cleared := cleared),
          Against(Own(s1, payer.wallet), -(amount - fee), CashAccount(cleared)));
      AsideThrough(s, s1, PayOut(s, payer, amount, key, purchase).value);
    }
  }

  lemma {:induction false} PaySlicesAside(s: State, payer: Payer, p: TxId, slices: seq<int>)
    requires PayerOk(s, payer) && PaySlices(s, payer, p, slices).Ok?
    ensures Aside(s, PaySlices(s, payer, p, slices).value)
  {
    hide PayOut, Aside;
    if |slices| == 0 {
      NothingAside(s, s);
    } else {
      var n := |slices| - 1;
      PaySlicesAside(s, payer, p, slices[..n]);
      var s1 := PaySlices(s, payer, p, slices[..n]).value;
      PayOutAside(s1, payer, slices[n], SweepSlice(payer.wallet, p, n, payer.minute), Some(p));
      AsideThrough(s, s1, PaySlices(s, payer, p, slices).value);
    }
  }

  lemma {:induction false} MarkAside(s: State, p: TxId)
    requires p < |s.txs|
    ensures Aside(s, s.(txs := s.txs[p := s.txs[p].(settled := true)]))
  {
  }

  lemma {:induction false} SweepingAside(s: State, payer: Payer, n: nat, balance: int)
    requires PayerOk(s, payer) && n <= |s.txs| && SweepPurchases(s, payer, n, balance).Ok?
    ensures Aside(s, SweepPurchases(s, payer, n, balance).value.state)
  {
    hide PaySlices, SlicesOf, Aside;
    NothingAside(s, s);
    if n > 0 {
      var p := n - 1;
      SweepingAside(s, payer, p, balance);
      var done := SweepPurchases(s, payer, p, balance).value;
      if SweepPurchases(s, payer, n, balance).value != done {
        var slices := SlicesOf(s, p, payer.wallet);
        PaySlicesAside(done.state, payer, p, slices);
        var s1 := PaySlices(done.state, payer, p, slices).value;
        MarkAside(s1, p);
        AsideThrough(s, done.state, s1);
        AsideThrough(s, s1, SweepPurchases(s, payer, n, balance).value.state);
      }
    }
  }

  lemma {:induction false} SweepAside(s: State, w: WalletId, minute: nat, failed: set<TxId>)
    requires SweepWallet(s, w, minute, failed).Ok?
    ensures Aside(s, SweepWallet(s, w, minute, failed).value)
  {
    hide SweepPurchases, PayOut, SplitMode, Balance, PayerFor, Aside;
    NothingAside(s, s);
    if Balance(s.journal, w) > 0 {
      var payer := PayerFor(s, w, minute, failed).value;
      if SplitMode(s, w) {
        SweepingAside(s, payer, |s.txs|, Balance(s.journal, w));
      } else {
        PayOutAside(s, payer, Balance(s.journal, w), Sweep(w, minute), None);
      }
    }
  }

  // ---- Every such request ----

  /** Not about one purchase: everything but opening, paying, topping up, dropping and refunding it. */
  predicate MovesElsewhere(s: State, op: Op) {
    match op
    case OpPurchase(_, _, _, _, _, _) => false
    case OpAttach(_, _, _) => false
    case OpTopUp(_, _, _) => false
    case OpExpire(t) => t < |s.txs| ==> s.txs[t].kind != Purchase
    case OpRefund(_, _, _) => false
    case OpVerify(t, _, _, _) => t < |s.txs| ==> s.txs[t].kind != Purchase && s.txs[t].completes.None?
    case _ => true
  }

  lemma {:induction false} OpeningAside(s: State, op: Op)
    requires op.OpDeposit? || op.OpCharge? || op.OpRepay? || op.OpCollect?
    requires Step(s, op).Ok?
    ensures Aside(s, Step(s, op).value)
  {
    hide FindKey, OutstandingRows, ValidChargeOverrides, StoredRows;
  }

  lemma {:induction false} LinesAside(s: State, op: Op)
    requires op.OpGrant? || op.OpReclaim?
    requires Step(s, op).Ok?
    ensures Aside(s, Step(s, op).value)
  {
    hide FindKey, OutstandingRows, Balance;
  }

  lemma {:induction false} FlagsAside(s: State, op: Op)
    requires op.OpClose? || op.OpReopen? || op.OpPenalties? || op.OpDueCheck? || op.OpDefaults?
    requires Step(s, op).Ok?
    ensures Aside(s, Step(s, op).value)
  {
    hide Balance, TooLate, AccrueRow, DueRow, ValidWalletDefaults;
  }

  lemma {:induction false} VerifyAside(s: State, t: TxId, paid: bool, now: int, today: Today)
    requires MovesElsewhere(s, OpVerify(t, paid, now, today)) && Verify(s, t, paid, now, today).Ok?
    ensures Aside(s, Verify(s, t, paid, now, today).value)
  {
    hide ReceiveMoney, CompleteTopUp, Settle, Aside;
    NothingAside(s, s);
    if s.txs[t].status == Awaiting && paid {
      ReceiveAside(s, t);
    }
  }

  lemma {:induction false} StepAside(s: State, op: Op)
    requires MovesElsewhere(s, op) && Step(s, op).Ok?
    ensures Aside(s, Step(s, op).value)
  {
    if op.OpDeposit? || op.OpCharge? || op.OpRepay? || op.OpCollect? {
      hide Step, Aside;
      OpeningAside(s, op);
    } else if op.OpGrant? || op.OpReclaim? {
      hide Step, Aside;
      LinesAside(s, op);
    } else if op.OpClose? || op.OpReopen? || op.OpPenalties? || op.OpDueCheck? || op.OpDefaults? {
      hide Step, Aside;
      FlagsAside(s, op);
    } else {
      hide Verify, WriteOff, SweepWallet, WithdrawFrom, TransferTo, Adjust, Aside, ExpirePending;
      match op
      case OpWithdraw(user, w, amount, cleared, key) => WithdrawAside(s, user, w, amount, cleared, key);
      case OpTransfer(user, from, to, amount, key) => TransferAside(s, user, from, to, amount, key);
      case OpAdjust(w, amount, key) => AdjustAside(s, w, amount, key);
      case OpVerify(t, paid, now, today) => VerifyAside(s, t, paid, now, today);
      case OpWriteOff(w, quit, key) => WriteOffAside(s, w, quit, key);
      case OpSweep(w, minute, failed) => SweepAside(s, w, minute, failed);
      case OpExpire(t) => ExpireAside(s, t);
    }
  }

  lemma {:induction false} ExpireAside(s: State, t: TxId)
    requires MovesElsewhere(s, OpExpire(t)) && ExpirePending(s, t).Ok?
    ensures Aside(s, ExpirePending(s, t).value)
  {
    RowAside(s, t, s.txs[t].(status := Reversed));
  }
}
