/** What holds over every run of the money engine, exactly which requests can break it, and that no
    credit line gains or loses. */
module Safety {
  import opened Common
  import opened Sums
  import opened Ledger
  import opened Installments
  import opened Settlement
  import opened Bank
  import opened BankInvariant
  import opened CreditLines
  import opened MoneyMoves
  import opened Purchases
  import opened Repayments
  import opened Payouts

  // ---- Every request, exactly ----

  /** A verification that would neither settle a canceled installment nor draw on a line whose type plans no
      installments. */
  predicate SafeToVerify(s: State, t: TxId, paid: bool) {
    t < |s.txs| ==>
      if s.txs[t].completes.Some? then
        paid || s.txs[t].status == Completed ==>
          !TopUpUnplanned(s, t)
      else if s.txs[t].kind == Deposit then s.txs[t].status == Awaiting && paid ==> Settleable(s, t)
      else s.txs[t].status == Awaiting && paid && s.txs[t].from.Some? && s.txs[t].from.value < |s.wallets| ==>
             !DrawsUnplanned(s, s.txs[t].from.value, s.txs[t].amount)
  }

  /** The guards the services do not have, each checkable before the request. */
  predicate Safe(s: State, op: Op) {
    match op
    case OpVerify(t, paid, now, today) => SafeToVerify(s, t, paid)
    case OpCharge(to, amount, splits, expires, key) => splits.Some? ==> HeadWithin(splits.value, amount)
    case OpDefaults(w, percents) => DefaultsWithinWhole(percents)
    case _ => true
  }

  lemma {:induction false} VerifyKeepsExactly(s: State, t: TxId, paid: bool, now: int, today: Date)
    requires Inv(s) && OnCalendar(today) && Verify(s, t, paid, now, today).Ok?
    ensures Inv(Verify(s, t, paid, now, today).value) <==> SafeToVerify(s, t, paid)
    ensures Inv(Verify(s, t, paid, now, today).value) ==> SameLines(s, Verify(s, t, paid, now, today).value)
  {
    hide Inv, SameLines, CompleteTopUp, ReceiveMoney, Settle;
    InvRow(s, t);
    LinesByMoney(s, s);
    if s.txs[t].completes.Some? && (paid || s.txs[t].status == Completed) {
      TopUpKeepsExactly(s, t, today);
    } else if s.txs[t].status == Awaiting && paid {
      if s.txs[t].kind == Deposit {
        ReceiveKeepsExactly(s, t);
      } else {
        SettleKeepsExactly(s, t, None, today);
      }
    }
  }

  lemma {:induction false} RefundOpKeeps(s: State, user: nat, p: TxId, key: string)
    requires Inv(s) && Refund(s, user, p, key).Ok?
    ensures Kept(s, Refund(s, user, p, key).value)
  {
    hide Inv, SameLines, RefundCompleted;
    InvRow(s, p);
    if s.txs[p].status == Awaiting {
      ExpireKeeps(s, p);
    } else {
      RefundKeeps(s, p, key);
    }
  }

  predicate MovesPool(op: Op) {
    op.OpGrant? || op.OpReclaim?
  }

  /** Whatever the request, if it goes through: the books hold afterwards exactly when it was safe, and
      unless it is a grant or a reclaim, no line gained or lost. */
  lemma {:induction false} StepKeepsExactly(s: State, op: Op)
    requires Inv(s) && Step(s, op).Ok?
    ensures Inv(Step(s, op).value) <==> Safe(s, op)
    ensures Safe(s, op) && !MovesPool(op) ==> SameLines(s, Step(s, op).value)
  {
    hide Inv, SameLines, SafeToVerify, Verify, SweepWallet, WriteOff, Refund, CloseAndReclaim, GrantCredit;
    match op
    case OpWithdraw(user, w, amount, cleared, key) => WithdrawKeeps(s, user, w, amount, cleared, key);
    case OpTransfer(user, from, to, amount, key) => TransferKeeps(s, user, from, to, amount, key);
    case OpAdjust(w, amount, key) => AdjustKeeps(s, w, amount, key);
    case OpDeposit(user, w, amount, expires, key) => OpenDepositKeeps(s, user, w, amount, expires, key);
    case OpPurchase(user, from, to, amount, expires, key) => OpenPurchaseKeeps(s, user, from, to, amount, expires, key);
    case OpCharge(to, amount, splits, expires, key) => OpenChargeKeepsExactly(s, to, amount, splits, expires, key);
    case OpAttach(tx, user, w) => AttachKeeps(s, tx, user, w);
    case OpRepay(user, i, expires, key) => OpenRepaymentKeeps(s, user, i, expires, key);
    case OpCollect(w, quit, expires, key) => OpenCollectionKeeps(s, w, quit, expires, key);
    case OpTopUp(p, shortfall, expires) => OpenTopUpKeeps(s, p, shortfall, expires);
    case OpExpire(tx) => ExpireKeeps(s, tx);
    case OpVerify(tx, paid, now, today) => VerifyKeepsExactly(s, tx, paid, now, today);
    case OpWriteOff(w, quit, key) => WriteOffKeeps(s, w, quit, key);
    case OpGrant(user, r, person, typ, amount, key) => GrantKeeps(s, user, r, person, typ, amount, key);
    case OpReclaim(w, key) => ReclaimKeeps(s, w, key);
    case OpClose(w) => CloseKeeps(s, w);
    case OpReopen(w) => ReopenKeeps(s, w);
    case OpRefund(user, tx, key) => RefundOpKeeps(s, user, tx, key);
    case OpSweep(w, minute, failed) => SweepKeeps(s, w, minute, failed);
    case OpPenalties(day) => PenaltiesKeep(s, day);
    case OpDueCheck(day) => DueCheckOnlyStamps(s, day);
    case OpDefaults(w, percents) => DefaultsKeepExactly(s, w, percents);
  }

  // ---- Conservation of the credit lines ----

  function Ids(n: nat): (ids: seq<WalletId>)
    ensures |ids| == n
  {
    seq(n, i requires 0 <= i < n => i)
  }

  function OnLine(s: State, r: WalletId): WalletId -> int {
    (w: WalletId) => if w < |s.wallets| && s.wallets[w].repository == Some(r) then Line(s, w) else 0
  }

  /** A repository's unallocated pool and all the lines it backs. */
  function LineTotal(s: State, r: WalletId): int
    requires r < |s.wallets|
  {
    Line(s, r) + Sum(Ids(|s.wallets|), OnLine(s, r))
  }

  lemma {:induction false} SameLinesSameTotal(s: State, s': State, r: WalletId)
    requires SameLines(s, s') && r < |s.wallets|
    ensures LineTotal(s', r) == LineTotal(s, r)
  {
    var known, all := Ids(|s.wallets|), Ids(|s'.wallets|);
    var more := all[|known|..];
    assert all == known + more;
    SumConcat(known, more, OnLine(s', r));
    SumSame(known, known, OnLine(s, r), OnLine(s', r));
    SumZero(more, OnLine(s', r));
  }

  /** A grant moves what the pool loses onto the new line. */
  lemma {:induction false} GrantKeepsTotal(s: State, s': State, r: WalletId, person: nat, typ: WalletType, amount: int,
      key: string, v: WalletId)
    requires WalletsOk(s.wallets) && MoneyOk(s.wallets, s.journal) && IsGrant(s, s', r, person, typ, amount, key)
    requires v < |s.wallets|
    ensures LineTotal(s', v) == LineTotal(s, v)
  {
    var n := |s.wallets|;
    StrangersHoldNothing(HoldersOf(s.wallets), s.journal, n);
    assert LinkOk(s.wallets, r);
    assert Ids(n + 1) == Ids(n) + [n];
    SumSnoc<WalletId>(Ids(n), n, OnLine(s', v));
    SumSame(Ids(n), Ids(n), OnLine(s, v), OnLine(s', v));
  }

  lemma {:induction false} ReclaimKeepsTotal(s: State, s': State, w: WalletId, key: string, v: WalletId)
    requires WalletsOk(s.wallets) && IsReclaim(s, s', w, key) && v < |s.wallets| && s.wallets[v].repository.None?
    ensures LineTotal(s', v) == LineTotal(s, v)
  {
    assert LinkOk(s.wallets, w);
    SumDiff(Ids(|s.wallets|), Ids(|s.wallets|), OnLine(s, v), OnLine(s', v), w);
  }

  predicate Backs(s: State, r: WalletId) {
    r < |s.wallets| && s.wallets[r].repository.None?
  }

  /** Every safe request conserves every repository's pool plus its lines. */
  lemma {:induction false} StepKeepsTotals(s: State, op: Op, r: WalletId)
    requires Inv(s) && Step(s, op).Ok? && Safe(s, op) && Backs(s, r)
    ensures Backs(Step(s, op).value, r) && LineTotal(Step(s, op).value, r) == LineTotal(s, r)
  {
    hide Inv, Safe, IsGrant, IsReclaim, LineTotal, GrantCredit, CloseAndReclaim;
    var s' := Step(s, op).value;
    InvMoney(s);
    if op.OpGrant? {
      GrantTables(s, op.user, op.repository, op.person, op.typ, op.amount, op.key);
      GrantKeepsTotal(s, s', op.repository, op.person, op.typ, op.amount, op.key, r);
      GrantStillBacks(s, s', op.repository, op.person, op.typ, op.amount, op.key, r);
    } else if op.OpReclaim? {
      ReclaimTables(s, op.wallet, op.key);
      ReclaimKeeps(s, op.wallet, op.key);
      if s.wallets[op.wallet].virtualAmount > 0 {
        ReclaimKeepsTotal(s, s', op.wallet, op.key, r);
        ReclaimStillBacks(s, s', op.wallet, op.key, r);
      } else {
        ClosedKeepsLine(s, s');
        SameLinesSameTotal(s, s', r);
        SameLinesStillBacks(s, s', r);
      }
    } else {
      StepKeepsExactly(s, op);
      SameLinesSameTotal(s, s', r);
      SameLinesStillBacks(s, s', r);
    }
  }

  lemma {:induction false} GrantStillBacks(s: State, s': State, g: WalletId, person: nat, typ: WalletType, amount: int,
      key: string, r: WalletId)
    requires IsGrant(s, s', g, person, typ, amount, key) && Backs(s, r)
    ensures Backs(s', r)
  {
  }

  lemma {:induction false} ReclaimStillBacks(s: State, s': State, w: WalletId, key: string, r: WalletId)
    requires IsReclaim(s, s', w, key) && Backs(s, r)
    ensures Backs(s', r)
  {
  }

  lemma {:induction false} SameLinesStillBacks(s: State, s': State, r: WalletId)
    requires SameLines(s, s') && Backs(s, r)
    ensures Backs(s', r)
  {
  }

  lemma {:induction false} ClosedKeepsLine(s: State, s': State)
    requires s'.journal == s.journal && SameShape(s.wallets, s'.wallets)
    requires forall w :: 0 <= w < |s.wallets| ==> s'.wallets[w].virtualAmount == s.wallets[w].virtualAmount
    ensures SameLines(s, s')
  {
  }

  // ---- Runs ----

  /** Every request of the run was safe when it was made. */
  predicate SafeRun(s: State, ops: seq<Op>) {
    |ops| > 0 ==> SafeRun(s, ops[..|ops| - 1]) && Safe(Run(s, ops[..|ops| - 1]), ops[|ops| - 1])
  }

  lemma {:induction false} RunKeeps(s: State, ops: seq<Op>)
    requires Inv(s) && SafeRun(s, ops)
    ensures Inv(Run(s, ops))
    ensures forall r :: Backs(s, r) ==> Backs(Run(s, ops), r) && LineTotal(Run(s, ops), r) == LineTotal(s, r)
  {
    hide Inv, Safe, Step, LineTotal;
    if |ops| > 0 {
      var init, op := ops[..|ops| - 1], ops[|ops| - 1];
      RunKeeps(s, init);
      var s1 := Run(s, init);
      if Step(s1, op).Ok? {
        StepKeepsExactly(s1, op);
        forall r | Backs(s, r)
          ensures Backs(Step(s1, op).value, r) && LineTotal(Step(s1, op).value, r) == LineTotal(s, r)
        {
          StepKeepsTotals(s1, op, r);
        }
      }
    }
  }

  /** A line is only taken off by its own closing. */
  lemma {:induction false} StepKeepsLine(s: State, op: Op, w: WalletId)
    requires Inv(s) && Step(s, op).Ok? && Safe(s, op) && w < |s.wallets| && s.wallets[w].repository.Some?
    requires op.OpReclaim? ==> op.wallet != w
    ensures var s' := Step(s, op).value;
            && Inv(s') && w < |s'.wallets| && s'.wallets[w].repository == s.wallets[w].repository
                && Line(s', w) == Line(s, w)
  {
    hide Inv, Safe, GrantCredit, CloseAndReclaim;
    StepKeepsExactly(s, op);
    InvMoney(s);
    assert LinkOk(s.wallets, w);
    if op.OpGrant? {
      GrantTables(s, op.user, op.repository, op.person, op.typ, op.amount, op.key);
      assert LinkOk(s.wallets, op.repository);
    } else if op.OpReclaim? {
      ReclaimTables(s, op.wallet, op.key);
      assert LinkOk(s.wallets, op.wallet);
    }
  }

  predicate NeverReclaims(ops: seq<Op>, w: WalletId) {
    forall i :: 0 <= i < |ops| && ops[i].OpReclaim? ==> ops[i].wallet != w
  }

  lemma {:induction false} RunKeepsLine(s: State, ops: seq<Op>, w: WalletId)
    requires Inv(s) && SafeRun(s, ops) && w < |s.wallets| && s.wallets[w].repository.Some? && NeverReclaims(ops, w)
    ensures var s' := Run(s, ops);
            && Inv(s') && w < |s'.wallets| && s'.wallets[w].repository == s.wallets[w].repository
                && Line(s', w) == Line(s, w)
  {
    hide Inv, Safe, Step, Line;
    if |ops| > 0 {
      var init, op := ops[..|ops| - 1], ops[|ops| - 1];
      RunKeepsLine(s, init, w);
      if Step(Run(s, init), op).Ok? {
        StepKeepsLine(Run(s, init), op, w);
      }
    }
  }

  /** Whatever safe requests came since (other grants and closings, draws, penalties, repayments, write-offs,
      refunds): closing a line puts exactly what it was granted back into the repository's pool. */
  lemma {:induction false} ClosingReturnsGrant(s: State, user: nat, r: WalletId, person: nat, typ: WalletType,
      amount: int, key: string,
                                               ops: seq<Op>, closing: string)
    requires Inv(s) && GrantCredit(s, user, r, person, typ, amount, key).Ok?
    requires var s1 := GrantCredit(s, user, r, person, typ, amount, key).value;
             SafeRun(s1, ops) && NeverReclaims(ops, |s.wallets|)
                 && CloseAndReclaim(Run(s1, ops), |s.wallets|, closing).Ok?
    ensures var s1 := GrantCredit(s, user, r, person, typ, amount, key).value;
            var s2 := Run(s1, ops);
            var s3 := CloseAndReclaim(s2, |s.wallets|, closing).value;
            && Inv(s3) && r < |s.wallets| <= |s1.wallets| && r < |s2.wallets| == |s3.wallets|
            && s1.wallets[r].virtualAmount == s.wallets[r].virtualAmount - amount
            && s3.wallets[r].virtualAmount == s2.wallets[r].virtualAmount + amount
  {
    hide Inv, GrantCredit, CloseAndReclaim, Run, SafeRun;
    var s1 := GrantCredit(s, user, r, person, typ, amount, key).value;
    var s2, w := Run(s1, ops), |s.wallets|;
    GrantKeeps(s, user, r, person, typ, amount, key);
    GrantedLine(s, s1, r, person, typ, amount, key);
    RunKeepsLine(s1, ops, w);
    ReclaimKeeps(s2, w, closing);
    GrantOf(s2, w);
  }

  lemma {:induction false} GrantedLine(s: State, s': State, r: WalletId, person: nat, typ: WalletType, amount: int,
      key: string)
    requires Inv(s) && IsGrant(s, s', r, person, typ, amount, key)
    ensures |s'.wallets| == |s.wallets| + 1 && r < |s.wallets|
        && s'.wallets[r].virtualAmount == s.wallets[r].virtualAmount - amount
    ensures Line(s', |s.wallets|) == amount && s'.wallets[|s.wallets|].repository == Some(r)
  {
    InvMoney(s);
    assert LinkOk(s.wallets, r);
    StrangersHoldNothing(HoldersOf(s.wallets), s.journal, |s.wallets|);
  }

  /** A freshly installed system: wallets with their pools, defaults that split properly, nothing else. */
  ghost predicate Fresh(s: State) {
    && s.txs == [] && s.installments == [] && s.journal == [] && s.overrides == map[]
    && (forall w :: 0 <= w < |s.wallets| ==> s.wallets[w].repository.None? && s.wallets[w].virtualAmount >= 0)
    && (forall w :: w in s.defaults && |s.defaults[w]| > 0 ==> GoodSplit(s.defaults[w]))
  }

  lemma {:induction false} FreshIsSound(s: State)
    requires Fresh(s)
    ensures Inv(s)
  {
    forall w: WalletId ensures Balance(s.journal, w) == 0 && Receivable(s.journal, w) == 0 {
      SumZero(s.journal, OverLegs(BalanceIn(w)));
      SumZero(s.journal, OverLegs(OwedIn(w)));
    }
  }

  /** The books of a state, in the terms the product is sold on. */
  ghost predicate BooksAgree(s: State) {
    // Double entry: debits equal credits in every currency, and the trial balance nets to zero.
    && Balanced(s.journal) && (forall c: CurrencyId :: Sum(CHART, NetRow(s.journal, c)) == 0)
    // No wallet is overdrawn, no ceiling is negative or above what was granted.
    && (forall w: WalletId :: Balance(s.journal, w) >= 0)
    && (forall w :: 0 <= w < |s.wallets| && s.wallets[w].repository.Some? ==>
          0 <= s.wallets[w].virtualAmount <= Granted(s.txs, w))
    // What a line owes is the principal of its unpaid installments, and none of those is on a refunded purchase.
    && (forall w: WalletId :: Receivable(s.journal, w) == Sum(s.installments, UnpaidOn(w)) >= 0)
    && (forall i :: 0 <= i < |s.installments| && Unpaid(s.installments[i]) ==>
          s.installments[i].purchase < |s.txs| && s.txs[s.installments[i].purchase].status == Completed)
    // The control accounts agree with the wallets filed under them.
    && (forall c: CurrencyId, code: AccountCode ::
        code == CustomerWallets || code == RepositoryFunds || code == FeeRevenue ==>
          -AccountNet(s.journal, code, c) == Sum(HoldersOf(s.wallets), BalanceRow(s.journal, code, c)))
    && (forall c: CurrencyId ::
          AccountNet(s.journal, CreditReceivable, c) == Sum(HoldersOf(s.wallets), ReceivableRow(s.journal, c)))
  }

  lemma {:induction false} InvariantBooks(s: State)
    requires Inv(s)
    ensures BooksAgree(s)
  {
    forall w: WalletId ensures Sum(s.installments, UnpaidOn(w)) >= 0 {
      forall i | 0 <= i < |s.installments| ensures UnpaidOn(w)(s.installments[i]) >= 0 {
        InvInstallment(s, i);
      }
      SumNonNegative(s.installments, UnpaidOn(w));
    }
    forall c: CurrencyId ensures Sum(CHART, NetRow(s.journal, c)) == 0 {
      TrialBalanceNetsToZero(s.journal, c);
    }
    forall i | 0 <= i < |s.installments| && Unpaid(s.installments[i])
      ensures s.installments[i].purchase < |s.txs| && s.txs[s.installments[i].purchase].status == Completed
    {
      InvInstallment(s, i);
    }
    forall c: CurrencyId, code: AccountCode | code == CustomerWallets || code == RepositoryFunds || code == FeeRevenue
      ensures -AccountNet(s.journal, code, c) == Sum(HoldersOf(s.wallets), BalanceRow(s.journal, code, c))
    {
      ControlAccountReconciles(HoldersOf(s.wallets), s.journal, code, c);
    }
    forall c: CurrencyId
      ensures AccountNet(s.journal, CreditReceivable, c) == Sum(HoldersOf(s.wallets), ReceivableRow(s.journal, c))
    {
      ReceivableAccountReconciles(HoldersOf(s.wallets), s.journal, c);
    }
  }

  /** Over every run of safe requests from a fresh system, all the books agree, and every repository's
      pool and lines together are what the pool was at the start. */
  lemma {:induction false} BooksAgreeAlways(s: State, ops: seq<Op>)
    requires Fresh(s) && SafeRun(s, ops)
    ensures BooksAgree(Run(s, ops))
    ensures forall r :: 0 <= r < |s.wallets| ==>
              Backs(Run(s, ops), r) && LineTotal(Run(s, ops), r) == s.wallets[r].virtualAmount
  {
    hide Inv, BooksAgree, Safe, Run;
    FreshIsSound(s);
    RunKeeps(s, ops);
    InvariantBooks(Run(s, ops));
    forall r | 0 <= r < |s.wallets| ensures LineTotal(s, r) == s.wallets[r].virtualAmount {
      SumZero(Ids(|s.wallets|), OnLine(s, r));
      SumZero(s.journal, OverLegs(OwedIn(r)));
    }
  }
}
