/** Requests that have nothing to do with one credit purchase: which they are, and that they leave its line's
    ceiling, its plan, and the balances of line and repository as they find them. */
module Bystanders {
  import opened Common
  import opened Sums
  import opened Ledger
  import opened Installments
  import opened Settlement
  import opened Bank
  import opened BankInvariant
  import opened CreditLines
  import opened MoneyMoves
  import opened Purchases
  import opened Repayments
  import opened History
  import opened Safety

  /** Purchase `p` is completed and was paid from line `c`, which repository `r` backs. */
  predicate PaidFrom(s: State, p: TxId, c: WalletId, r: WalletId) {
    && p < |s.txs| && IsPurchase(s.txs[p]) && s.txs[p].status == Completed && s.txs[p].from == Some(c)
    && c < |s.wallets| && s.wallets[c].repository == Some(r)
  }

  ghost predicate Untouched(s: State, s': State, p: TxId, c: WalletId, r: WalletId) {
    && c < |s.wallets| <= |s'.wallets| && s'.wallets[c].virtualAmount == s.wallets[c].virtualAmount
    && p < |s.txs| <= |s'.txs| && s'.txs[p].status == s.txs[p].status
    && Balance(s'.journal, c) == Balance(s.journal, c) && Balance(s'.journal, r) == Balance(s.journal, r)
    && Sum(s'.installments, PaidUnder(p)) == Sum(s.installments, PaidUnder(p))
    && Sum(s'.installments, CanceledUnder(p)) == Sum(s.installments, CanceledUnder(p))
  }

  // ---- Which requests those are ----

  /** A wallet whose own money, real or mirrored, is neither the line's nor the repository's. */
  predicate Elsewhere(s: State, w: WalletId, c: WalletId, r: WalletId) {
    w < |s.wallets| ==> w != c && w != r && s.wallets[w].repository != Some(r)
  }

  predicate VerifiesElsewhere(s: State, t: TxId, c: WalletId, r: WalletId)
    requires t < |s.txs|
  {
    && s.txs[t].completes.None? && !IsRepayment(s.txs[t])
    && (s.txs[t].kind == Deposit && s.txs[t].to.Some? ==> Elsewhere(s, s.txs[t].to.value, c, r))
    && (s.txs[t].kind == Purchase ==>
          (s.txs[t].from.Some? ==> Elsewhere(s, s.txs[t].from.value, c, r)) && s.txs[t].to != Some(c)
              && s.txs[t].to != Some(r))
  }

  predicate RefundsElsewhere(s: State, q: TxId, c: WalletId, r: WalletId)
    requires q < |s.txs|
  {
    && s.txs[q].from != Some(c) && s.txs[q].from != Some(r) && s.txs[q].to != Some(c) && s.txs[q].to != Some(r)
    && (s.txs[q].from.Some? ==>
          FundingRepository(s, q, s.txs[q].from.value) != c && FundingRepository(s, q, s.txs[q].from.value) != r)
  }

  /** Openings of anything, flags, the installment sweeps, grants, and whatever goes on at other wallets. */
  predicate Apart(s: State, op: Op, p: TxId, c: WalletId, r: WalletId) {
    match op
    case OpWithdraw(user, w, amount, cleared, key) => Elsewhere(s, w, c, r)
    case OpTransfer(user, from, to, amount, key) => Elsewhere(s, from, c, r) && to != c && to != r
    case OpAdjust(w, amount, key) => w != c && w != r
    case OpVerify(t, paid, now, today) => t < |s.txs| ==> VerifiesElsewhere(s, t, c, r)
    case OpReclaim(w, key) => w != c
    case OpRefund(user, q, key) => q != p
        && (q < |s.txs| && s.txs[q].status == Completed ==> RefundsElsewhere(s, q, c, r))
    case OpWriteOff(w, quit, key) => false
    case OpSweep(w, minute, failed) => false
    case _ => true
  }

  // ---- That they leave the purchase alone ----

  /** Nothing but a PENDING row at the end. */
  predicate OnlyInserts(op: Op) {
    op.OpDeposit? || op.OpPurchase? || op.OpCharge? || op.OpRepay? || op.OpCollect?
  }

  lemma {:induction false} PaymentsInsert(s: State, op: Op)
    requires (op.OpDeposit? || op.OpPurchase? || op.OpCharge?) && Step(s, op).Ok?
    ensures var s' := Step(s, op).value; s' == s.(txs := s'.txs, overrides := s'.overrides) && s.txs <= s'.txs
  {
    hide FindKey, OwnedWallet;
  }

  lemma {:induction false} RepaymentsInsert(s: State, op: Op)
    requires (op.OpRepay? || op.OpCollect?) && Step(s, op).Ok?
    ensures var s' := Step(s, op).value; s' == s.(txs := s'.txs) && s.txs <= s'.txs
  {
    hide FindKey, OwnedWallet, OutstandingRows;
  }

  lemma {:induction false} InsertUntouched(s: State, op: Op, p: TxId, c: WalletId, r: WalletId)
    requires PaidFrom(s, p, c, r) && OnlyInserts(op) && Step(s, op).Ok?
    ensures Untouched(s, Step(s, op).value, p, c, r)
  {
    hide Step;
    if op.OpRepay? || op.OpCollect? {
      RepaymentsInsert(s, op);
    } else {
      PaymentsInsert(s, op);
    }
  }

  /** Details of a PENDING row, and a wallet's flags. */
  predicate OnlyFlags(op: Op) {
    op.OpAttach? || op.OpTopUp? || op.OpExpire? || op.OpClose? || op.OpReopen? || op.OpDefaults?
  }

  lemma {:induction false} FlagUntouched(s: State, op: Op, p: TxId, c: WalletId, r: WalletId)
    requires PaidFrom(s, p, c, r) && OnlyFlags(op) && Step(s, op).Ok?
    ensures Untouched(s, Step(s, op).value, p, c, r)
  {
    hide Balance, FindKey;
  }

  lemma {:induction false} PenaltiesUntouched(s: State, day: int, p: TxId, c: WalletId, r: WalletId)
    requires Inv(s) && PaidFrom(s, p, c, r)
    ensures Untouched(s, ApplyPenalties(s, day), p, c, r)
  {
    hide Inv, TooLate;
    var s' := ApplyPenalties(s, day);
    forall i | 0 <= i < |s.installments|
      ensures PaidUnder(p)(s'.installments[i]) == PaidUnder(p)(s.installments[i])
      ensures CanceledUnder(p)(s'.installments[i]) == CanceledUnder(p)(s.installments[i])
    {
    }
    SumSame(s.installments, s'.installments, PaidUnder(p), PaidUnder(p));
    SumSame(s.installments, s'.installments, CanceledUnder(p), CanceledUnder(p));
  }

  lemma {:induction false} DueCheckUntouched(s: State, day: int, p: TxId, c: WalletId, r: WalletId)
    requires Inv(s) && PaidFrom(s, p, c, r)
    ensures Untouched(s, CheckDue(s, day), p, c, r)
  {
    hide Inv, SameLines;
    DueCheckOnlyStamps(s, day);
    var s' := CheckDue(s, day);
    forall i | 0 <= i < |s.installments|
      ensures PaidUnder(p)(s'.installments[i]) == PaidUnder(p)(s.installments[i])
      ensures CanceledUnder(p)(s'.installments[i]) == CanceledUnder(p)(s.installments[i])
    {
    }
    SumSame(s.installments, s'.installments, PaidUnder(p), PaidUnder(p));
    SumSame(s.installments, s'.installments, CanceledUnder(p), CanceledUnder(p));
  }

  lemma {:induction false} GrantUntouched(s: State, user: nat, g: WalletId, person: nat, typ: WalletType, amount: int,
      key: string,
                                          p: TxId, c: WalletId, r: WalletId)
    requires Inv(s) && PaidFrom(s, p, c, r) && GrantCredit(s, user, g, person, typ, amount, key).Ok?
    ensures Untouched(s, GrantCredit(s, user, g, person, typ, amount, key).value, p, c, r)
  {
    assert LinkOk(s.wallets, c);
    assert LinkOk(s.wallets, g);
    GrantTables(s, user, g, person, typ, amount, key);
  }

  lemma {:induction false} ReclaimUntouched(s: State, w: WalletId, key: string, p: TxId, c: WalletId, r: WalletId)
    requires Inv(s) && PaidFrom(s, p, c, r) && w != c && CloseAndReclaim(s, w, key).Ok?
    ensures Untouched(s, CloseAndReclaim(s, w, key).value, p, c, r)
  {
    assert LinkOk(s.wallets, c);
    assert LinkOk(s.wallets, w);
    ReclaimTables(s, w, key);
  }

  lemma {:induction false} ElsewhereUnmoved(s: State, w: WalletId, amount: int, c: WalletId, r: WalletId)
    requires Inv(s) && w < |s.wallets| && Elsewhere(s, w, c, r) && c < |s.wallets| && s.wallets[c].repository == Some(r)
    ensures Shift(s, w, amount, c) == 0 && Shift(s, w, amount, r) == 0
  {
    assert LinkOk(s.wallets, w) && LinkOk(s.wallets, c);
  }

  lemma {:induction false} PaidCashTables(s: State, user: nat, w: WalletId, amount: int, cleared: bool, key: string)
    requires WithdrawFrom(s, user, w, amount, cleared, key).Ok?
    ensures var s' := WithdrawFrom(s, user, w, amount, cleared, key).value;
            s'.wallets == s.wallets && s'.installments == s.installments && s.txs <= s'.txs
  {
    WithdrawTables(s, user, w, amount, cleared, key);
    var t := Row(Withdraw, Completed, Some(w), None, amount, Client(key)).(cleared := cleared);
    PayCashPosts(Insert(s, t).value, |s.txs|, w, amount, CashAccount(cleared));
  }

  lemma {:induction false} TransferredTables(s: State, user: nat, from: WalletId, to: WalletId, amount: int,
      key: string)
    requires TransferTo(s, user, from, to, amount, key).Ok?
    ensures var s' := TransferTo(s, user, from, to, amount, key).value;
            s'.wallets == s.wallets && s'.installments == s.installments && s.txs <= s'.txs
  {
    TransferTables(s, user, from, to, amount, key);
    PayWalletPosts(Insert(s, Row(Transfer, Completed, Some(from), Some(to), amount, Client(key))).value, |s.txs|, from,
        to, amount);
  }

  lemma {:induction false} AdjustedTables(s: State, w: WalletId, amount: int, key: string)
    requires Adjust(s, w, amount, key).Ok?
    ensures var s' := Adjust(s, w, amount, key).value;
            s'.wallets == s.wallets && s'.installments == s.installments && s.txs <= s'.txs
  {
  }

  predicate MovesOwnMoney(op: Op) {
    op.OpWithdraw? || op.OpTransfer? || op.OpAdjust?
  }

  lemma {:induction false} MoneyUntouched(s: State, op: Op, p: TxId, c: WalletId, r: WalletId)
    requires Inv(s) && PaidFrom(s, p, c, r) && MovesOwnMoney(op) && Apart(s, op, p, c, r) && Step(s, op).Ok?
    ensures Untouched(s, Step(s, op).value, p, c, r)
  {
    hide Inv, SameLines, WithdrawFrom, TransferTo, Adjust, Shift, Elsewhere;
    match op {
      case OpWithdraw(user, w, amount, cleared, key) =>
        WithdrawKeeps(s, user, w, amount, cleared, key);
        PaidCashTables(s, user, w, amount, cleared, key);
        ElsewhereUnmoved(s, w, amount, c, r);
      case OpTransfer(user, from, to, amount, key) =>
        TransferKeeps(s, user, from, to, amount, key);
        TransferredTables(s, user, from, to, amount, key);
        ElsewhereUnmoved(s, from, amount, c, r);
      case OpAdjust(w, amount, key) =>
        AdjustKeeps(s, w, amount, key);
        AdjustedTables(s, w, amount, key);
    }
  }

  lemma {:induction false} DepositUntouched(s: State, t: TxId, p: TxId, c: WalletId, r: WalletId)
    requires Inv(s) && PaidFrom(s, p, c, r) && t < |s.txs| && s.txs[t].kind == Deposit && s.txs[t].status == Awaiting
    requires VerifiesElsewhere(s, t, c, r) && ReceiveMoney(s, t).Ok?
    ensures Untouched(s, ReceiveMoney(s, t).value, p, c, r)
  {
    hide Inv, SameLines, PayIn, Shift, Elsewhere;
    DepositKeeps(s, t);
    PayInPosts(s, t, s.txs[t].to.value, s.txs[t].amount);
    ElsewhereUnmoved(s, s.txs[t].to.value, s.txs[t].amount, c, r);
  }

  lemma {:induction false} FundedElsewhere(s: State, q: TxId, today: Date, p: TxId, c: WalletId, r: WalletId)
    requires PaidFrom(s, p, c, r) && PlansDrawn(s.txs, s.installments) && Ready(s, q, None) && OnCalendar(today)
    requires Settle(s, q, None, today).Ok? && q != p && s.txs[q].from != Some(c)
    ensures var s' := Settle(s, q, None, today).value;
            && c < |s.wallets| <= |s'.wallets| && s'.wallets[c].virtualAmount == s.wallets[c].virtualAmount
            && p < |s.txs| <= |s'.txs| && s'.txs[p] == s.txs[p]
            && Sum(s'.installments, PaidUnder(p)) == Sum(s.installments, PaidUnder(p))
            && Sum(s'.installments, CanceledUnder(p)) == Sum(s.installments, CanceledUnder(p))
  {
    hide Settle, FundPurchase, PlansDrawn, PurchaseLegs, ReceivableLegs, Schedule;
    var s2 := SettleUnfolds(s, q, None, today);
    FundingTables(s, s2, q, None, today);
    var from, rest := s.txs[q].from.value, Remainder(s, q, None);
    if DrawsOnLine(s, from, rest) {
      var more := DrawPlan(s, q, from, rest, today);
      SumConcat(s.installments, more, PaidUnder(p));
      SumZero(more, PaidUnder(p));
      SumConcat(s.installments, more, CanceledUnder(p));
      SumZero(more, CanceledUnder(p));
    }
  }

  lemma {:induction false} PurchaseUntouched(s: State, q: TxId, today: Date, p: TxId, c: WalletId, r: WalletId)
    requires Inv(s) && PaidFrom(s, p, c, r) && OnCalendar(today) && Ready(s, q, None) && s.txs[q].status == Awaiting
    requires VerifiesElsewhere(s, q, c, r) && Settle(s, q, None, today).Ok?
    requires !DrawsUnplanned(s, s.txs[q].from.value, s.txs[q].amount)
    ensures Untouched(s, Settle(s, q, None, today).value, p, c, r)
  {
    hide Inv, SameLines, Settle;
    InvPlans(s);
    FundedElsewhere(s, q, today, p, c, r);
    SettleKeeps(s, q, None, today);
    LinkOfLine(s, c, r);
  }

  lemma {:induction false} LinkOfLine(s: State, c: WalletId, r: WalletId)
    requires Inv(s) && c < |s.wallets| && s.wallets[c].repository == Some(r)
    ensures r < |s.wallets| && r != c && forall w :: 0 <= w < |s.wallets| ==> s.wallets[w].repository != Some(c)
  {
    assert LinkOk(s.wallets, c);
    forall w | 0 <= w < |s.wallets| ensures s.wallets[w].repository != Some(c) {
      assert LinkOk(s.wallets, w);
    }
  }

  lemma {:induction false} VerifyUntouched(s: State, t: TxId, paid: bool, now: int, today: Date, p: TxId, c: WalletId,
      r: WalletId)
    requires Inv(s) && PaidFrom(s, p, c, r) && OnCalendar(today) && SafeToVerify(s, t, paid)
    requires t < |s.txs| && VerifiesElsewhere(s, t, c, r) && Verify(s, t, paid, now, today).Ok?
    ensures Untouched(s, Verify(s, t, paid, now, today).value, p, c, r)
  {
    hide Inv, ReceiveMoney, Settle, VerifiesElsewhere, DrawsUnplanned;
    InvRow(s, t);
    NoTopUp(s, t, c, r);
    if s.txs[t].status == Awaiting && paid {
      if s.txs[t].kind == Deposit {
        DepositUntouched(s, t, p, c, r);
      } else {
        PurchaseUntouched(s, t, today, p, c, r);
      }
    }
  }

  lemma {:induction false} NoTopUp(s: State, t: TxId, c: WalletId, r: WalletId)
    requires t < |s.txs| && VerifiesElsewhere(s, t, c, r)
    ensures s.txs[t].completes.None? && !IsRepayment(s.txs[t])
  {
  }

  lemma {:induction false} RefundUntouched(s: State, user: nat, q: TxId, key: string, p: TxId, c: WalletId, r: WalletId)
    requires Inv(s) && PaidFrom(s, p, c, r) && Apart(s, OpRefund(user, q, key), p, c, r) && Refund(s, user, q, key).Ok?
    ensures Untouched(s, Refund(s, user, q, key).value, p, c, r)
  {
    hide Inv, RefundCompleted, SameLines, FundingRepository, UnpaidDraw, Returned, FindKey, HasPlan, CancelPlan,
      RefundRowOf, ReceivableLegs, OwnsEitherSide;
    InvRow(s, q);
    if s.txs[q].status != Awaiting {
      RefundKeeps(s, q, key);
      RefundedTables(s, q, key);
      CanceledElsewhere(s.installments, q, p);
    }
  }

  lemma {:induction false} CanceledElsewhere(installments: seq<Installment>, q: TxId, p: TxId)
    requires q != p
    ensures Sum(CancelPlan(installments, q), PaidUnder(p)) == Sum(installments, PaidUnder(p))
    ensures Sum(CancelPlan(installments, q), CanceledUnder(p)) == Sum(installments, CanceledUnder(p))
  {
    SumSame(installments, CancelPlan(installments, q), PaidUnder(p), PaidUnder(p));
    SumSame(installments, CancelPlan(installments, q), CanceledUnder(p), CanceledUnder(p));
  }

  /** Whatever is requested elsewhere leaves the purchase, its line and its repository alone. */
  lemma {:induction false} ApartIsUntouched(s: State, op: Op, p: TxId, c: WalletId, r: WalletId)
    requires Inv(s) && PaidFrom(s, p, c, r) && Safe(s, op) && Apart(s, op, p, c, r) && Step(s, op).Ok?
    ensures Untouched(s, Step(s, op).value, p, c, r)
  {
    hide Inv, PaidFrom, Untouched, Elsewhere, VerifiesElsewhere, RefundsElsewhere, SafeToVerify, Verify, Refund,
      GrantCredit, CloseAndReclaim, WithdrawFrom, TransferTo, Adjust;
    match op
    case OpGrant(user, g, person, typ, amount, key) => GrantUntouched(s, user, g, person, typ, amount, key, p, c, r);
    case OpReclaim(w, key) => ReclaimUntouched(s, w, key, p, c, r);
    case OpVerify(t, paid, now, today) => KnownRow(s, op); VerifyUntouched(s, t, paid, now, today, p, c, r);
    case OpRefund(user, q, key) => RefundUntouched(s, user, q, key, p, c, r);
    case OpPenalties(day) => PenaltiesUntouched(s, day, p, c, r);
    case OpDueCheck(day) => DueCheckUntouched(s, day, p, c, r);
    case _ =>
      if MovesOwnMoney(op) {
        MoneyUntouched(s, op, p, c, r);
      } else if OnlyInserts(op) {
        InsertUntouched(s, op, p, c, r);
      } else {
        FlagUntouched(s, op, p, c, r);
      }
  }

  lemma {:induction false} KnownRow(s: State, op: Op)
    requires op.OpVerify? && Step(s, op).Ok?
    ensures op.tx < |s.txs|
  {
  }
}
