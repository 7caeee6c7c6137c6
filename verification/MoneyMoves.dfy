/** The requests that move money without touching a credit line, and those that only open or
    amend rows: each keeps the invariant. */
module MoneyMoves {
  import opened Common
  import opened Sums
  import opened Ledger
  import opened Installments
  import opened Settlement
  import opened Bank
  import opened BankInvariant

  predicate Unowned(code: AccountCode) {
    code == BankCash || code == SettlementClearing || code == LedgerAdjustments || code == RepositoryAllocations
  }

  /** A wallet's balance against an account no wallet owns. */
  lemma {:induction false} AgainstStep(s: State, tx: TxId, w: WalletId, delta: int, counter: AccountCode)
    requires MoneyOk(s.wallets, s.journal) && w < |s.wallets| && delta != 0 && Unowned(counter)
    requires Balance(s.journal, w) + delta >= 0
    ensures Post(s, tx, Against(Own(s, w), delta, counter)).Ok?
    ensures var s' := Post(s, tx, Against(Own(s, w), delta, counter)).value;
            && MoneyStep(s, s')
            && forall v: WalletId :: Balance(s'.journal, v) == Balance(s.journal, v) + if v == w then delta else 0
  {
    var legs := Against(Own(s, w), delta, counter);
    AgainstEffect(Own(s, w), delta, counter);
    AcceptsExactly(legs);
    assert HoldersOf(s.wallets)[w] == Own(s, w);
    PostStep(s, tx, legs);
  }

  lemma {:induction false} PairSums(l: Leg, m: Leg)
    ensures forall f: Leg -> int :: Sum([l, m], f) == f(l) + f(m)
  {
    forall f: Leg -> int ensures Sum([l, m], f) == f(l) + f(m) {
      SumPair(l, m, f);
    }
  }

  lemma {:induction false} WalletToWalletStep(s: State, tx: TxId, a: WalletId, b: WalletId, amount: int)
    requires MoneyOk(s.wallets, s.journal) && a < |s.wallets| && b < |s.wallets| && amount > 0
    requires Balance(s.journal, a) >= amount
    requires Post(s, tx, WalletToWallet(Own(s, a), Own(s, b), amount)).Ok?
    ensures var s' := Post(s, tx, WalletToWallet(Own(s, a), Own(s, b), amount)).value;
            && MoneyStep(s, s')
            && forall v: WalletId :: Balance(s'.journal, v)
                 == Balance(s.journal, v) - (if v == a then amount else 0) + (if v == b then amount else 0)
  {
    var legs := WalletToWallet(Own(s, a), Own(s, b), amount);
    PairSums(legs[0], legs[1]);
    assert HoldersOf(s.wallets)[a] == Own(s, a) && HoldersOf(s.wallets)[b] == Own(s, b);
    PostStep(s, tx, legs);
  }

  lemma {:induction false} MirrorStep(s: State, tx: TxId, w: WalletId, delta: int)
    requires MoneyOk(s.wallets, s.journal) && w < |s.wallets|
    requires s.wallets[w].repository.Some? ==> Balance(s.journal, w) + delta >= 0
    ensures Mirror(s, tx, w, delta).Ok? && MoneyStep(s, Mirror(s, tx, w, delta).value)
    ensures forall v: WalletId :: Balance(Mirror(s, tx, w, delta).value.journal, v)
              == Balance(s.journal, v) + if v == w && s.wallets[w].repository.Some? then delta else 0
  {
    if s.wallets[w].repository.Some? && delta != 0 {
      AgainstStep(s, tx, w, delta, RepositoryAllocations);
    }
  }

  function RealWallet(s: State, w: WalletId): WalletId
    requires w < |s.wallets|
  {
    if s.wallets[w].repository.Some? then s.wallets[w].repository.value else w
  }

  /** What moving `amount` of a wallet's own balance means for `v`: real money on the repository, if there is
      one, and then the mirror on the wallet itself. */
  function Shift(s: State, w: WalletId, amount: int, v: WalletId): int
    requires w < |s.wallets|
  {
    (if v == RealWallet(s, w) then amount else 0) + if v == w && s.wallets[w].repository.Some? then amount else 0
  }

  /** Where the real money of a wallet sits, and that it can be moved there. */
  lemma {:induction false} LedgerHolderFound(s: State, w: WalletId)
    requires LinksOk(s.wallets) && w < |s.wallets|
    ensures var v := RealWallet(s, w);
            && v < |s.wallets| && LedgerHolder(s, w) == Ok(Own(s, v)) && (s.wallets[w].repository.Some? ==> v != w)
  {
    assert Linked(s.wallets, w);
  }

  predicate CanPay(s: State, w: WalletId, amount: int)
    requires w < |s.wallets|
  {
    && amount > 0 && Balance(s.journal, w) >= amount
    && (s.wallets[w].repository.Some? ==> Balance(s.journal, s.wallets[w].repository.value) >= amount)
  }

  lemma {:induction false} PayCashStep(s: State, tx: TxId, w: WalletId, amount: int, cash: AccountCode)
    requires LinksOk(s.wallets) && MoneyOk(s.wallets, s.journal)
    requires w < |s.wallets| && CanPay(s, w, amount) && Unowned(cash)
    ensures PayCash(s, tx, w, amount, cash).Ok? && MoneyStep(s, PayCash(s, tx, w, amount, cash).value)
    ensures forall v: WalletId :: Balance(PayCash(s, tx, w, amount, cash).value.journal, v)
              == Balance(s.journal, v) - Shift(s, w, amount, v)
  {
    hide Post, MoneyOk;
    LedgerHolderFound(s, w);
    var v := RealWallet(s, w);
    AgainstStep(s, tx, v, -amount, cash);
    MirrorStep(Post(s, tx, Against(Own(s, v), -amount, cash)).value, tx, w, -amount);
  }

  lemma {:induction false} PayInStep(s: State, tx: TxId, w: WalletId, amount: int)
    requires LinksOk(s.wallets) && MoneyOk(s.wallets, s.journal) && w < |s.wallets| && amount > 0
    ensures PayIn(s, tx, w, amount).Ok? && MoneyStep(s, PayIn(s, tx, w, amount).value)
    ensures forall v: WalletId ::
        Balance(PayIn(s, tx, w, amount).value.journal, v) == Balance(s.journal, v) + Shift(s, w, amount, v)
  {
    hide Post, MoneyOk;
    LedgerHolderFound(s, w);
    var v := RealWallet(s, w);
    HeldMoney(s, v);
    HeldMoney(s, w);
    AgainstStep(s, tx, v, amount, BankCash);
    MirrorStep(Post(s, tx, Against(Own(s, v), amount, BankCash)).value, tx, w, amount);
  }

  lemma {:induction false} HeldMoney(s: State, w: WalletId)
    requires MoneyOk(s.wallets, s.journal)
    ensures Balance(s.journal, w) >= 0
  {
  }

  lemma {:induction false} PayWalletStep(s: State, tx: TxId, from: WalletId, to: WalletId, amount: int)
    requires LinksOk(s.wallets) && MoneyOk(s.wallets, s.journal)
    requires from < |s.wallets| && to < |s.wallets| && CanPay(s, from, amount)
    requires PayWallet(s, tx, from, to, amount).Ok?
    ensures MoneyStep(s, PayWallet(s, tx, from, to, amount).value)
    ensures forall v: WalletId :: Balance(PayWallet(s, tx, from, to, amount).value.journal, v)
              == Balance(s.journal, v) - Shift(s, from, amount, v) + if v == to then amount else 0
  {
    LedgerHolderFound(s, from);
    var v := RealWallet(s, from);
    WalletToWalletStep(s, tx, v, to, amount);
    MirrorStep(Post(s, tx, WalletToWallet(Own(s, v), Own(s, to), amount)).value, tx, from, -amount);
  }

  lemma {:induction false} WithdrawTables(s: State, user: nat, w: WalletId, amount: int, cleared: bool, key: string)
    requires WithdrawFrom(s, user, w, amount, cleared, key).Ok?
    ensures w < |s.wallets| && CanPay(s, w, amount)
    ensures var t := Row(Withdraw, Completed, Some(w), None, amount, Client(key)).(cleared := cleared);
            && Insert(s, t).Ok?
            && WithdrawFrom(s, user, w, amount, cleared, key)
                == PayCash(Insert(s, t).value, |s.txs|, w, amount, CashAccount(cleared))
  {
  }

  /** A withdrawal keeps the books and takes the amount from the wallet and from the repository behind it. */
  lemma {:induction false} WithdrawKeeps(s: State, user: nat, w: WalletId, amount: int, cleared: bool, key: string)
    requires Inv(s) && WithdrawFrom(s, user, w, amount, cleared, key).Ok?
    ensures Kept(s, WithdrawFrom(s, user, w, amount, cleared, key).value) && w < |s.wallets|
    ensures forall v: WalletId :: Balance(WithdrawFrom(s, user, w, amount, cleared, key).value.journal, v)
              == Balance(s.journal, v) - Shift(s, w, amount, v)
  {
    hide Inv, LinksOk, PayCash, WithdrawFrom;
    InvMoney(s);
    WalletsAreLinked(s.wallets);
    WithdrawTables(s, user, w, amount, cleared, key);
    var t := Row(Withdraw, Completed, Some(w), None, amount, Client(key)).(cleared := cleared);
    InsertKeeps(s, t);
    var s1 := Insert(s, t).value;
    PayCashStep(s1, |s.txs|, w, amount, CashAccount(cleared));
    MoneyStepKeeps(s1, PayCash(s1, |s.txs|, w, amount, CashAccount(cleared)).value);
  }

  lemma {:induction false} TransferTables(s: State, user: nat, from: WalletId, to: WalletId, amount: int, key: string)
    requires TransferTo(s, user, from, to, amount, key).Ok?
    ensures from < |s.wallets| && to < |s.wallets| && CanPay(s, from, amount)
    ensures var t := Row(Transfer, Completed, Some(from), Some(to), amount, Client(key));
            && Insert(s, t).Ok?
            && TransferTo(s, user, from, to, amount, key) == PayWallet(Insert(s, t).value, |s.txs|, from, to, amount)
  {
  }

  /** A transfer keeps the books and moves the amount, from the repository as well if there is one. */
  lemma {:induction false} TransferKeeps(s: State, user: nat, from: WalletId, to: WalletId, amount: int, key: string)
    requires Inv(s) && TransferTo(s, user, from, to, amount, key).Ok?
    ensures Kept(s, TransferTo(s, user, from, to, amount, key).value) && from < |s.wallets|
    ensures forall v: WalletId :: Balance(TransferTo(s, user, from, to, amount, key).value.journal, v)
              == Balance(s.journal, v) - Shift(s, from, amount, v) + if v == to then amount else 0
  {
    hide Inv, LinksOk, PayWallet, TransferTo;
    InvMoney(s);
    WalletsAreLinked(s.wallets);
    TransferTables(s, user, from, to, amount, key);
    var t := Row(Transfer, Completed, Some(from), Some(to), amount, Client(key));
    InsertKeeps(s, t);
    var s1 := Insert(s, t).value;
    PayWalletStep(s1, |s.txs|, from, to, amount);
    MoneyStepKeeps(s1, PayWallet(s1, |s.txs|, from, to, amount).value);
  }

  lemma {:induction false} AdjustKeeps(s: State, w: WalletId, amount: int, key: string)
    requires Inv(s) && Adjust(s, w, amount, key).Ok?
    ensures Kept(s, Adjust(s, w, amount, key).value)
    ensures forall v: WalletId :: Balance(Adjust(s, w, amount, key).value.journal, v)
              == Balance(s.journal, v) + if v == w then amount else 0
  {
    hide Inv;
    var t := Row(Adjustment, Completed, if amount < 0 then Some(w) else None,
                 if amount >= 0 then Some(w) else None, Abs(amount), Client(key));
    InsertKeeps(s, t);
    AgainstStep(Insert(s, t).value, |s.txs|, w, amount, LedgerAdjustments);
    MoneyStepKeeps(Insert(s, t).value, Adjust(s, w, amount, key).value);
  }

  // ---- Rows that move nothing yet ----

  lemma {:induction false} OpenDepositKeeps(s: State, user: nat, w: WalletId, amount: int, expires: int, key: string)
    requires Inv(s) && OpenDeposit(s, user, w, amount, expires, key).Ok?
    ensures Kept(s, OpenDeposit(s, user, w, amount, expires, key).value)
  {
    hide Inv;
    InsertKeeps(s, Row(Deposit, Awaiting, None, Some(w), amount, Client(key)).(expires := Some(expires)));
  }

  lemma {:induction false} OpenPurchaseKeeps(s: State, user: nat, from: WalletId, to: WalletId, amount: int,
      expires: int, key: string)
    requires Inv(s) && OpenPurchase(s, user, from, to, amount, expires, key).Ok?
    ensures Kept(s, OpenPurchase(s, user, from, to, amount, expires, key).value)
  {
    hide Inv;
    InsertKeeps(s, Row(Purchase, Awaiting, Some(from), Some(to), amount, Client(key)).(expires := Some(expires)));
  }

  /** A charge keeps the books exactly when its split cuts it into no negative slice. */
  lemma {:induction false} OpenChargeKeepsExactly(s: State, to: WalletId, amount: int, splits: Option<seq<SplitDto>>,
      expires: int, key: string)
    requires Inv(s) && OpenCharge(s, to, amount, splits, expires, key).Ok?
    ensures SameLines(s, OpenCharge(s, to, amount, splits, expires, key).value)
    ensures Inv(OpenCharge(s, to, amount, splits, expires, key).value)
       <==> (splits.Some? ==> HeadWithin(splits.value, amount))
  {
    hide SlicesNonNegative, HeadWithin, ValidChargeOverrides, Amounts, SplitsOk, StoredRows, WalletsOk, RowsOk,
      InstallmentsOk, PlansOk, PaidOk, DebtsOk, LinesOk, MoneyOk, FindKey;
    var t := Row(Purchase, Awaiting, None, Some(to), amount, Client(key)).(expires := Some(expires));
    InsertKeeps(s, t);
    var s' := OpenCharge(s, to, amount, splits, expires, key).value;
    if splits.Some? {
      AcceptedSplitGoodExactly(splits.value, amount);
      OwnSplitAdded(s'.txs, s.overrides, s.defaults, |s.txs|, StoredRows(splits.value));
    }
  }

  lemma {:induction false} DefaultsAreRows(percents: seq<int>)
    requires ValidWalletDefaults(percents)
    ensures |DefaultRows(percents)| > 0
  {
  }

  /** New defaults keep the books exactly when they cut no purchase whatsoever into a negative slice. */
  lemma {:induction false} DefaultsKeepExactly(s: State, w: WalletId, percents: seq<int>)
    requires Inv(s) && ReplaceDefaults(s, w, percents).Ok?
    ensures SameLines(s, ReplaceDefaults(s, w, percents).value)
    ensures Inv(ReplaceDefaults(s, w, percents).value) <==> DefaultsWithinWhole(percents)
  {
    hide SlicesNonNegative, DefaultsWithinWhole, ValidWalletDefaults, Amounts, SplitsOk, WalletsOk, RowsOk,
      InstallmentsOk, PlansOk, PaidOk, DebtsOk, LinesOk, MoneyOk;
    var s' := ReplaceDefaults(s, w, percents).value;
    AcceptedDefaultsGoodExactly(percents);
    DefaultsAreRows(percents);
    DefaultsReplaced(s.txs, s.overrides, s.defaults, w, DefaultRows(percents));
    LinesByMoney(s, s');
  }

  lemma {:induction false} AttachKeeps(s: State, id: TxId, user: nat, w: WalletId)
    requires Inv(s) && AttachWallet(s, id, user, w).Ok?
    ensures Kept(s, AttachWallet(s, id, user, w).value)
  {
    hide Inv;
    InvRow(s, id);
    if s.txs[id].from.None? {
      ReplaceKeeps(s, id, s.txs[id].(from := Some(w)));
    }
  }

  lemma {:induction false} OpenRepaymentKeeps(s: State, user: nat, i: nat, expires: int, key: string)
    requires Inv(s) && OpenRepayment(s, user, i, expires, key).Ok?
    ensures Kept(s, OpenRepayment(s, user, i, expires, key).value)
  {
    hide Inv;
    var wallet := s.wallets[s.installments[i].wallet];
    var charge := s.installments[i].amount + if wallet.blocked then wallet.typ.terms.unblockFee else 0;
    InsertKeeps(s, Row(Deposit, Awaiting, None, wallet.repository, charge, Client(key))
                     .(expires := Some(expires), installment := Some(i)));
  }

  lemma {:induction false} OpenCollectionKeeps(s: State, w: WalletId, quit: bool, expires: int, key: string)
    requires Inv(s) && OpenCollection(s, w, quit, expires, key).Ok?
    ensures Kept(s, OpenCollection(s, w, quit, expires, key).value)
  {
    hide Inv;
    var wallet := s.wallets[w];
    var owed := Sum(OutstandingRows(s.installments, w), AmountOf()) + if quit then 0 else wallet.typ.terms.unblockFee;
    InsertKeeps(s, Row(Deposit, Awaiting, None, wallet.repository, owed, Client(key))
                     .(expires := Some(expires), settles := Some(w)));
  }

  lemma {:induction false} OpenTopUpKeeps(s: State, p: TxId, shortfall: int, expires: int)
    requires Inv(s) && OpenTopUp(s, p, shortfall, expires).Ok?
    ensures Kept(s, OpenTopUp(s, p, shortfall, expires).value)
  {
    hide Inv;
    if !exists i :: 0 <= i < |s.txs| && s.txs[i].completes == Some(p) && s.txs[i].status == Awaiting {
      InvRow(s, p);
      var purchase := s.txs[p].(expires := Some(expires));
      ReplaceKeeps(s, p, purchase);
      var s1 := s.(txs := s.txs[p := purchase]);
      InsertKeeps(s1, Row(Deposit, Awaiting, None, None, shortfall, SupportTopUp(p, Attempts(s.txs, p)))
                        .(expires := Some(expires), completes := Some(p)));
    }
  }

  lemma {:induction false} AwaitingHasNoPlan(s: State, p: TxId)
    requires Inv(s) && p < |s.txs| && s.txs[p].status == Awaiting
    ensures !HasPlan(s.installments, p)
  {
    forall i | 0 <= i < |s.installments| ensures s.installments[i].purchase != p {
      assert InstallmentOk(s.wallets, s.txs, s.installments[i]);
    }
  }

  lemma {:induction false} ExpireKeeps(s: State, id: TxId)
    requires Inv(s) && ExpirePending(s, id).Ok?
    ensures Kept(s, ExpirePending(s, id).value)
  {
    AwaitingHasNoPlan(s, id);
    assert RowOk(|s.wallets|, |s.installments|, s.txs, id);
    ReplaceKeeps(s, id, s.txs[id].(status := Reversed));
  }

  // ---- Wallet flags ----

  lemma {:induction false} CloseKeeps(s: State, w: WalletId)
    requires Inv(s) && CloseWallet(s, w).Ok?
    ensures Kept(s, CloseWallet(s, w).value)
  {
    FlagsKeep(s, CloseWallet(s, w).value.wallets);
  }

  lemma {:induction false} ReopenKeeps(s: State, w: WalletId)
    requires Inv(s) && ReopenWallet(s, w).Ok?
    ensures Kept(s, ReopenWallet(s, w).value)
  {
    FlagsKeep(s, ReopenWallet(s, w).value.wallets);
  }

  // ---- The daily sweeps ----

  /** Rows that keep what the books look at. */
  predicate SamePlan(i: Installment, k: Installment) {
    && k.wallet == i.wallet && k.purchase == i.purchase && k.principal == i.principal && k.fee == i.fee
    && Unpaid(k) == Unpaid(i) && (k.status == Paid <==> i.status == Paid)
        && (k.status == Canceled <==> i.status == Canceled)
  }

  lemma {:induction false} SamePlansKeep(s: State, rows: seq<Installment>)
    requires Inv(s) && |rows| == |s.installments|
    requires forall i :: 0 <= i < |rows| ==>
        s.installments[i].wallet < |s.wallets| && SamePlan(s.installments[i], rows[i])
    requires forall i :: 0 <= i < |rows| ==>
        Accrued(rows[i], s.wallets[s.installments[i].wallet].typ.terms.penaltyMilli)
    ensures Inv(s.(installments := rows))
  {
    forall i | 0 <= i < |rows| ensures InstallmentOk(s.wallets, s.txs, rows[i]) {
      assert InstallmentOk(s.wallets, s.txs, s.installments[i]);
    }
    forall p: TxId ensures Sum(rows, PrincipalUnder(p)) == Sum(s.installments, PrincipalUnder(p)) {
      SumSame(s.installments, rows, PrincipalUnder(p), PrincipalUnder(p));
    }
    forall p: TxId ensures Sum(rows, CanceledUnder(p)) == Sum(s.installments, CanceledUnder(p)) {
      SumSame(s.installments, rows, CanceledUnder(p), CanceledUnder(p));
    }
    forall p: TxId | HasPlan(rows, p) ensures HasPlan(s.installments, p) {
      var i :| 0 <= i < |rows| && rows[i].purchase == p;
      assert s.installments[i].purchase == p;
    }
    forall w: WalletId ensures Sum(rows, UnpaidOn(w)) == Sum(s.installments, UnpaidOn(w)) {
      SumSame(s.installments, rows, UnpaidOn(w), UnpaidOn(w));
    }
  }

  lemma {:induction false} PenaltiesKeep(s: State, today: int)
    requires Inv(s)
    ensures Kept(s, ApplyPenalties(s, today))
  {
    hide Inv, TooLate;
    var s' := ApplyPenalties(s, today);
    forall i | 0 <= i < |s.installments|
      ensures s.installments[i].wallet < |s.wallets| && SamePlan(s.installments[i], s'.installments[i])
      ensures Accrued(s'.installments[i], s.wallets[s'.installments[i].wallet].typ.terms.penaltyMilli)
    {
      InvInstallment(s, i);
      AccrueKeepsAccrued(s.installments[i], s.wallets[s.installments[i].wallet].typ.terms.penaltyMilli, today);
    }
    SamePlansKeep(s, s'.installments);
    FlagsKeep(s.(installments := s'.installments), s'.wallets);
  }

  /** No reversed purchase has anything unpaid, so the due-date check never finds a row to cancel: it
      only stamps rows as checked. */
  lemma {:induction false} DueCheckOnlyStamps(s: State, today: int)
    requires Inv(s)
    ensures Kept(s, CheckDue(s, today))
    ensures forall i :: 0 <= i < |s.installments| ==>
              var row := CheckDue(s, today).installments[i];
              row == s.installments[i] || row == s.installments[i].(dueChecked := true)
  {
    hide Inv;
    var s' := CheckDue(s, today);
    forall i | 0 <= i < |s.installments|
      ensures s.installments[i].wallet < |s.wallets| && SamePlan(s.installments[i], s'.installments[i])
      ensures Accrued(s'.installments[i], s.wallets[s'.installments[i].wallet].typ.terms.penaltyMilli)
      ensures s'.installments[i] == s.installments[i] || s'.installments[i] == s.installments[i].(dueChecked := true)
    {
      InvInstallment(s, i);
    }
    SamePlansKeep(s, s'.installments);
  }
}
