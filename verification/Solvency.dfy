/** Whatever is requested, debits equal credits and no wallet is overdrawn, as long as the splits of new
    charges cannot produce a negative slice. Unlike the books of the credit lines, this does not
    depend on which verifications are made. */
module Solvency {
  import opened Common
  import opened Sums
  import opened Ledger
  import opened Installments
  import opened Settlement
  import opened Bank
  import opened BankInvariant
  import opened CreditLines
  import opened MoneyMoves
  import opened Purchases
  import opened Repayments
  import opened Payouts
  import opened Safety

  /** Every amount is positive, and repayments are deposits. */
  predicate PositiveRows(txs: seq<Tx>) {
    forall i :: 0 <= i < |txs| ==> txs[i].amount > 0 && (IsRepayment(txs[i]) ==> txs[i].kind == Deposit)
  }

  /** Purchases stay purchases, at their price. */
  predicate PricesStay(txs: seq<Tx>, later: seq<Tx>) {
    |txs| <= |later| && forall t :: 0 <= t < |txs| && txs[t].kind == Purchase ==>
                          later[t].kind == Purchase && later[t].amount == txs[t].amount
  }

  ghost predicate Solvent(s: State) {
    LinksOk(s.wallets) && MoneyOk(s.wallets, s.journal) && PositiveRows(s.txs)
        && SplitsOk(s.txs, s.overrides, s.defaults)
  }

  /** What a step does to the tables that solvency looks at. */
  ghost predicate Stays(s: State, s': State) {
    && Solvent(s') && SameShape(s.wallets, s'.wallets) && PricesStay(s.txs, s'.txs)
    && s'.overrides == s.overrides && s'.defaults == s.defaults
  }

  lemma {:induction false} StaysThrough(a: State, b: State, c: State)
    requires Stays(a, b) && Stays(b, c)
    ensures Stays(a, c)
  {
    hide Solvent;
  }

  // ---- The single writes ----

  lemma {:induction false} RowsStay(s: State, txs: seq<Tx>)
    requires Solvent(s) && PositiveRows(txs) && PricesStay(s.txs, txs)
    ensures Stays(s, s.(txs := txs))
  {
    forall p | p in s.overrides ensures OwnSplitGood(txs, p, s.overrides[p]) {
      assert OwnSplitGood(s.txs, p, s.overrides[p]);
    }
  }

  lemma {:induction false} InsertStays(s: State, t: Tx)
    requires Solvent(s) && Insert(s, t).Ok? && (IsRepayment(t) ==> t.kind == Deposit)
    ensures Stays(s, Insert(s, t).value) && Insert(s, t).value == s.(txs := s.txs + [t])
  {
    RowsStay(s, s.txs + [t]);
  }

  lemma {:induction false} StatusStays(s: State, id: TxId, status: TxStatus)
    requires Solvent(s) && id < |s.txs|
    ensures Stays(s, SetStatus(s, id, status))
  {
    RowsStay(s, SetStatus(s, id, status).txs);
  }

  lemma {:induction false} MoneyStays(s: State, s': State)
    requires Solvent(s) && MoneyStep(s, s')
    ensures Stays(s, s')
  {
  }

  lemma {:induction false} ShapeStays(s: State, vs: seq<Wallet>)
    requires Solvent(s) && SameShape(s.wallets, vs)
    ensures Stays(s, s.(wallets := vs))
  {
    forall w | 0 <= w < |vs| ensures Linked(vs, w) {
      assert Linked(s.wallets, w);
    }
    assert HoldersOf(vs) == HoldersOf(s.wallets);
  }

  lemma {:induction false} PlansStay(s: State, installments: seq<Installment>)
    requires Solvent(s)
    ensures Stays(s, s.(installments := installments))
  {
  }

  lemma {:induction false} VirtualStays(s: State, w: WalletId, amount: int)
    requires Solvent(s) && w < |s.wallets|
    ensures Stays(s, SetVirtual(s, w, amount))
  {
    ShapeStays(s, SetVirtual(s, w, amount).wallets);
  }

  lemma {:induction false} ReceivableStays(s: State, tx: TxId, w: WalletId, delta: int)
    requires Solvent(s) && w < |s.wallets| && PostReceivable(s, tx, w, delta).Ok?
    ensures Stays(s, PostReceivable(s, tx, w, delta).value)
    ensures forall v: WalletId :: Balance(PostReceivable(s, tx, w, delta).value.journal, v) == Balance(s.journal, v)
    ensures PostReceivable(s, tx, w, delta).value == s.(journal := PostReceivable(s, tx, w, delta).value.journal)
  {
    if delta != 0 {
      assert HoldersOf(s.wallets)[w] == Own(s, w);
      ReceivableKeepsMoney(s.wallets, s.journal, tx, w, delta);
      ReceivablePosted(s.journal, tx, Own(s, w), delta);
    }
  }

  lemma {:induction false} Unchanged(s: State)
    requires Solvent(s)
    ensures Stays(s, s)
  {
  }

  lemma {:induction false} SolventFacts(s: State)
    requires Solvent(s)
    ensures LinksOk(s.wallets) && MoneyOk(s.wallets, s.journal)
    ensures PositiveRows(s.txs)
  {
  }

  // ---- Withdrawals, transfers, adjustments ----

  lemma {:induction false} WithdrawStays(s: State, user: nat, w: WalletId, amount: int, cleared: bool, key: string)
    requires Solvent(s) && WithdrawFrom(s, user, w, amount, cleared, key).Ok?
    ensures Stays(s, WithdrawFrom(s, user, w, amount, cleared, key).value)
  {
    hide Solvent, SameShape, PayCash, WithdrawFrom;
    WithdrawTables(s, user, w, amount, cleared, key);
    var t := Row(Withdraw, Completed, Some(w), None, amount, Client(key)).(cleared := cleared);
    InsertStays(s, t);
    var s1 := Insert(s, t).value;
    SolventFacts(s1);
    PayCashStep(s1, |s.txs|, w, amount, CashAccount(cleared));
    MoneyStays(s1, PayCash(s1, |s.txs|, w, amount, CashAccount(cleared)).value);
    StaysThrough(s, s1, PayCash(s1, |s.txs|, w, amount, CashAccount(cleared)).value);
  }

  lemma {:induction false} TransferStays(s: State, user: nat, from: WalletId, to: WalletId, amount: int, key: string)
    requires Solvent(s) && TransferTo(s, user, from, to, amount, key).Ok?
    ensures Stays(s, TransferTo(s, user, from, to, amount, key).value)
  {
    hide Solvent, SameShape, PayWallet, TransferTo;
    TransferTables(s, user, from, to, amount, key);
    var t := Row(Transfer, Completed, Some(from), Some(to), amount, Client(key));
    InsertStays(s, t);
    var s1 := Insert(s, t).value;
    SolventFacts(s1);
    PayWalletStep(s1, |s.txs|, from, to, amount);
    MoneyStays(s1, PayWallet(s1, |s.txs|, from, to, amount).value);
    StaysThrough(s, s1, PayWallet(s1, |s.txs|, from, to, amount).value);
  }

  lemma {:induction false} AdjustStays(s: State, w: WalletId, amount: int, key: string)
    requires Solvent(s) && Adjust(s, w, amount, key).Ok?
    ensures Stays(s, Adjust(s, w, amount, key).value)
  {
    hide Solvent, SameShape;
    var t := Row(Adjustment, Completed, if amount < 0 then Some(w) else None,
                 if amount >= 0 then Some(w) else None, Abs(amount), Client(key));
    InsertStays(s, t);
    var s1 := Insert(s, t).value;
    SolventFacts(s1);
    AgainstStep(s1, |s.txs|, w, amount, LedgerAdjustments);
    MoneyStays(s1, Adjust(s, w, amount, key).value);
    StaysThrough(s, s1, Adjust(s, w, amount, key).value);
  }

  // ---- Completing a purchase ----

  lemma {:induction false} DrawStays(s: State, p: TxId, from: WalletId, amount: int, today: Date)
    requires Solvent(s) && from < |s.wallets| && s.wallets[from].repository.Some? && OnCalendar(today)
    requires Draw(s, p, from, amount, today).Ok?
    ensures var s' := Draw(s, p, from, amount, today).value;
            && Stays(s, s') && s.txs <= s'.txs && forall v: WalletId :: Balance(s'.journal, v) == Balance(s.journal, v)
    ensures Balance(s.journal, s.wallets[from].repository.value) >= amount
  {
    hide Solvent, SameShape, PostReceivable, PlanRows, Schedule;
    var s1 := SetVirtual(s, from, s.wallets[from].virtualAmount - amount);
    VirtualStays(s, from, s.wallets[from].virtualAmount - amount);
    ReceivableStays(s1, p, from, amount);
    var s2 := PostReceivable(s1, p, from, amount).value;
    var r := s.wallets[from].repository.value;
    var fund := Row(Transfer, Completed, Some(r), Some(from), amount, CreditFund(p));
    InsertStays(s2, fund);
    var s3 := Insert(s2, fund).value;
    var draw := Row(Virtual, Completed, Some(from), None, amount, CreditDraw(p));
    InsertStays(s3, draw);
    var s4 := Insert(s3, draw).value;
    PlansStay(s4, CreatePlan(s4, from, p, amount, today).installments);
    StaysThrough(s, s1, s2);
    StaysThrough(s, s2, s3);
    StaysThrough(s, s3, s4);
    StaysThrough(s, s4, Draw(s, p, from, amount, today).value);
  }

  /** Funding records rows and debts, moves no balance, and has checked whoever is to pay. */
  lemma {:induction false} FundingStays(s: State, p: TxId, support: Option<Funding>, today: Date)
    requires Solvent(s) && Payable(s, p, support) && OnCalendar(today) && FundPurchase(s, p, support, today).Ok?
    ensures var s2 := FundPurchase(s, p, support, today).value;
            && Stays(s, s2) && s.txs <= s2.txs
                && (forall v: WalletId :: Balance(s2.journal, v) == Balance(s.journal, v))
    ensures support.Some? ==> Balance(s.journal, support.value.wallet) >= support.value.amount
    ensures var from, rest := s.txs[p].from.value, Remainder(s, p, support);
            DrawsOnLine(s, from, rest) ==> Balance(s.journal, s.wallets[from].repository.value) >= rest
  {
    hide Solvent, SameShape, Draw;
    var from, rest := s.txs[p].from.value, Remainder(s, p, support);
    var s1 := Funded(s, p, support);
    if support.Some? {
      assert FundFromSupport(s, p, from, support.value) == Ok(s1);
      InsertStays(s, SupportRow(p, from, support.value));
    } else {
      Unchanged(s);
    }
    if DrawsOnLine(s, from, rest) {
      DrawStays(s1, p, from, rest, today);
      StaysThrough(s, s1, Draw(s1, p, from, rest, today).value);
    }
  }

  /** Whoever pays for the purchase has at least what it pays. */
  lemma {:induction false} PayersCovered(s: State, p: TxId, support: Option<Funding>)
    requires LinksOk(s.wallets) && MoneyOk(s.wallets, s.journal) && Payable(s, p, support)
    requires support.Some? ==> Balance(s.journal, support.value.wallet) >= support.value.amount
    requires var from, rest := s.txs[p].from.value, Remainder(s, p, support);
             DrawsOnLine(s, from, rest) ==> Balance(s.journal, s.wallets[from].repository.value) >= rest
    requires support.None? && !DrawsOnLine(s, s.txs[p].from.value, s.txs[p].amount) ==>
               Balance(s.journal, s.txs[p].from.value) >= s.txs[p].amount
    ensures forall w: WalletId :: Balance(s.journal, w) >= PaidIn(s, p, support, w)
  {
    assert Linked(s.wallets, s.txs[p].from.value);
  }

  lemma {:induction false} SettleStays(s: State, p: TxId, support: Option<Funding>, today: Date)
    requires Solvent(s) && Payable(s, p, support) && OnCalendar(today) && Settle(s, p, support, today).Ok?
    ensures Stays(s, Settle(s, p, support, today).value)
  {
    hide Solvent, SameShape, Settle, FundPurchase, PurchaseLegs, PaidIn, DrawsOnLine;
    var s2 := SettleUnfolds(s, p, support, today);
    FundingStays(s, p, support, today);
    SolventFacts(s);
    SolventFacts(s2);
    PayersCovered(s, p, support);
    SameHolders(s.wallets, s2.wallets);
    PurchasePosted(s, s2, p, support);
    var s3 := Post(s2, p, PurchaseLegs(s, p, support)).value;
    MoneyStays(s2, s3);
    StatusStays(s3, p, Completed);
    StaysThrough(s, s2, s3);
    StaysThrough(s, s3, SetStatus(s3, p, Completed));
  }

  lemma {:induction false} SameHolders(ws: seq<Wallet>, vs: seq<Wallet>)
    requires SameShape(ws, vs)
    ensures HoldersOf(vs) == HoldersOf(ws)
  {
  }

  // ---- Top-ups ----

  /** A new wallet without backing disturbs nobody. */
  lemma {:induction false} NewWalletStays(s: State, wallet: Wallet)
    requires Solvent(s) && wallet.repository.None?
    ensures Solvent(s.(wallets := s.wallets + [wallet]))
  {
    var ws := s.wallets + [wallet];
    forall w | 0 <= w < |ws| ensures Linked(ws, w) {
      if w < |s.wallets| {
        assert Linked(s.wallets, w);
      }
    }
    MoreHolders(s.wallets, wallet, s.journal);
  }

  lemma {:induction false} MoreHolders(ws: seq<Wallet>, wallet: Wallet, j: Journal)
    requires MoneyOk(ws, j)
    ensures MoneyOk(ws + [wallet], j)
  {
    var hs, more := HoldersOf(ws), HoldersOf(ws + [wallet]);
    assert forall i :: 0 <= i < |hs| ==> more[i] == hs[i];
    forall i, k | 0 <= i < |j| && 0 <= k < |j[i].legs| ensures Filed(more, j[i].legs[k]) {
      assert Filed(hs, j[i].legs[k]);
    }
  }

  lemma {:induction false} LandTopUpSolvent(s: State, t: TxId, user: nat, currency: CurrencyId)
    requires Solvent(s) && t < |s.txs| && LandTopUp(s, t, user, currency).Ok?
    ensures var (s1, support) := LandTopUp(s, t, user, currency).value;
            && Solvent(s1) && s.wallets <= s1.wallets && s1.overrides == s.overrides && s1.defaults == s.defaults
            && s1.wallets[support].typ.code == Support
  {
    hide Solvent, SameShape, FindSupport;
    var (s0, support) := SupportWalletFor(s, user, currency).value;
    if s0.wallets != s.wallets {
      NewWalletStays(s, s0.wallets[|s.wallets|]);
      assert s0 == s.(wallets := s.wallets + [s0.wallets[|s.wallets|]]);
    }
    if s.txs[t].status != Completed {
      SolventFacts(s0);
      var txs := s0.txs[t := s0.txs[t].(to := Some(support), status := Completed)];
      RowsStay(s0, txs);
      var landed := s0.(txs := txs);
      SolventFacts(landed);
      HeldMoney(landed, support);
      AgainstStep(landed, t, support, s.txs[t].amount, BankCash);
      MoneyStays(landed, Post(landed, t, Against(Own(landed, support), s.txs[t].amount, BankCash)).value);
    }
  }

  lemma {:induction false} TopUpSolvent(s: State, t: TxId, today: Date)
    requires Solvent(s) && t < |s.txs| && s.txs[t].completes.Some? && OnCalendar(today)
        && CompleteTopUp(s, t, today).Ok?
    ensures Solvent(CompleteTopUp(s, t, today).value)
  {
    hide Solvent, SameShape, Settle, LandTopUp;
    var p := s.txs[t].completes.value;
    var from := s.wallets[s.txs[p].from.value];
    LandTopUpSolvent(s, t, from.user, from.typ.currency);
    var (s1, support) := LandTopUp(s, t, from.user, from.typ.currency).value;
    SolventFacts(s1);
    SolventFacts(s);
    if s.txs[p].status != Completed {
      SettleStays(s1, p, Some(Funding(support, s.txs[t].amount)), today);
    }
  }

  // ---- Repayments ----

  lemma {:induction false} SettleOneStays(s: State, i: nat, tx: TxId)
    requires Solvent(s) && i < |s.installments| && SettleOne(s, i, tx).Ok?
    ensures Stays(s, SettleOne(s, i, tx).value)
  {
    hide Solvent, SameShape, PostReceivable;
    var row := s.installments[i];
    var s1 := s.(installments := s.installments[i := row.(status := Paid)]);
    PlansStay(s, s1.installments);
    if row.wallet < |s.wallets| {
      ReceivableStays(s1, tx, row.wallet, -row.principal);
      var s2 := PostReceivable(s1, tx, row.wallet, -row.principal).value;
      VirtualStays(s2, row.wallet, s2.wallets[row.wallet].virtualAmount + row.principal);
      var s3 := SetVirtual(s2, row.wallet, s2.wallets[row.wallet].virtualAmount + row.principal);
      var restore := Row(Virtual, Completed, None, Some(row.wallet), row.principal, InstallmentRestore(i));
      InsertStays(s3, restore);
      StaysThrough(s, s1, s2);
      StaysThrough(s, s2, s3);
      StaysThrough(s, s3, Insert(s3, restore).value);
    }
  }

  lemma {:induction false} UnblockStays(s: State, w: WalletId)
    requires Solvent(s)
    ensures Stays(s, Unblock(s, w))
  {
    hide Solvent;
    if w < |s.wallets| {
      ShapeStays(s, Unblock(s, w).wallets);
    } else {
      Unchanged(s);
    }
  }

  lemma {:induction false} SettleOutstandingStays(s: State, w: WalletId, n: nat, tx: TxId)
    requires Solvent(s) && n <= |s.installments| && SettleOutstanding(s, w, n, tx).Ok?
    ensures Stays(s, SettleOutstanding(s, w, n, tx).value)
  {
    hide Solvent, SameShape, SettleOne;
    if n == 0 {
      Unchanged(s);
    } else {
      SettleOutstandingStays(s, w, n - 1, tx);
      var s1 := SettleOutstanding(s, w, n - 1, tx).value;
      if n <= |s1.installments| && s1.installments[n - 1].wallet == w && Unpaid(s1.installments[n - 1]) {
        SettleOneStays(s1, n - 1, tx);
        StaysThrough(s, s1, SettleOne(s1, n - 1, tx).value);
      }
    }
  }

  lemma {:induction false} MarkAllPaidStays(s: State, w: WalletId, tx: TxId)
    requires Solvent(s) && MarkAllPaid(s, w, tx).Ok?
    ensures Stays(s, MarkAllPaid(s, w, tx).value)
  {
    hide Solvent, SameShape, SettleOutstanding, Unblock;
    SettleOutstandingStays(s, w, |s.installments|, tx);
    var s1 := SettleOutstanding(s, w, |s.installments|, tx).value;
    UnblockStays(s1, w);
    StaysThrough(s, s1, Unblock(s1, w));
  }

  lemma {:induction false} MarkPaidStays(s: State, i: nat, tx: TxId)
    requires Solvent(s) && MarkPaid(s, i, tx).Ok?
    ensures Stays(s, MarkPaid(s, i, tx).value)
  {
    hide Solvent, SameShape, SettleOne, Unblock;
    if i < |s.installments| {
      SettleOneStays(s, i, tx);
      var s1 := SettleOne(s, i, tx).value;
      UnblockStays(s1, s.installments[i].wallet);
      StaysThrough(s, s1, Unblock(s1, s.installments[i].wallet));
    } else {
      Unchanged(s);
    }
  }

  /** Routing adds rows and hands out movements of wallets that exist. */
  lemma {:induction false} RouteStays(s: State, main: WalletId, parts: seq<Part>, transfer: bool, prefix: SplitPrefix)
    requires Solvent(s) && Route(s, main, parts, transfer, prefix).Ok?
    ensures var r := Route(s, main, parts, transfer, prefix).value;
            Stays(s, r.state) && r.state == s.(txs := r.state.txs) && s.txs <= r.state.txs && Held(s.wallets, r.legs)
  {
    hide Solvent, SameShape, FindKey;
    if |parts| == 0 {
      Unchanged(s);
    } else {
      var init, part := parts[..|parts| - 1], parts[|parts| - 1];
      RouteStays(s, main, init, transfer, prefix);
      var r := Route(s, main, init, transfer, prefix).value;
      if OpenTarget(s.wallets, part) {
        var row := Row(if transfer then Transfer else Deposit, Completed, if transfer then Some(main) else None,
                       part.target, part.amount, SliceKey(prefix, part.slice));
        InsertStays(r.state, row);
        StaysThrough(s, r.state, Insert(r.state, row).value);
      }
    }
  }

  lemma {:induction false} LandRepaymentStays(s: State, t: TxId)
    requires Solvent(s) && Chargeable(s, t) && LandRepayment(s, t, s.txs[t].to.value).Ok?
    ensures Stays(s, LandRepayment(s, t, s.txs[t].to.value).value)
  {
    hide Solvent, SameShape, LandRepayment, Route, CashInLegs, ChargeOf;
    var main := s.txs[t].to.value;
    var charge, r := LandUnfolds(s, t);
    RouteStays(s, main, charge.parts, false, OfRepayment(t));
    var credits := [Movement(Own(s, main), charge.principal + r.unrouted)] + r.legs;
    SolventFacts(r.state);
    CashInStep(r.state, t, s.wallets[main].typ.currency, s.txs[t].amount, credits);
    var s1 := Post(r.state, t, CashInLegs(BankCash, s.wallets[main].typ.currency, s.txs[t].amount, credits)).value;
    MoneyStays(r.state, s1);
    SolventFacts(s1);
    var txs := r.state.txs[t := r.state.txs[t].(amount := charge.principal + r.unrouted, status := Completed)];
    RowsStay(s1, txs);
    StaysThrough(s, r.state, s1);
    StaysThrough(s, s1, s1.(txs := txs));
  }

  /** A charge whose installment is not on record lands nothing at all. */
  lemma {:induction false} UnchargeableStays(s: State, t: TxId, main: WalletId)
    requires Solvent(s) && t < |s.txs| && main < |s.wallets| && s.txs[t].installment.Some?
    requires s.txs[t].installment.value >= |s.installments| && LandRepayment(s, t, main).Ok?
    ensures Stays(s, LandRepayment(s, t, main).value)
  {
    hide Solvent, SameShape;
    StatusStays(s, t, Completed);
  }

  lemma {:induction false} SettleRepaidStays(s: State, tx: Tx, t: TxId)
    requires Solvent(s) && SettleRepaid(s, tx, t).Ok?
    ensures Stays(s, SettleRepaid(s, tx, t).value)
  {
    hide Solvent, SameShape, MarkPaid, MarkAllPaid;
    Unchanged(s);
    var s1 := if tx.installment.Some? then MarkPaid(s, tx.installment.value, t).value else s;
    if tx.installment.Some? {
      MarkPaidStays(s, tx.installment.value, t);
    }
    if tx.settles.Some? {
      MarkAllPaidStays(s1, tx.settles.value, t);
      StaysThrough(s, s1, MarkAllPaid(s1, tx.settles.value, t).value);
    }
  }

  lemma {:induction false} ReceiveStays(s: State, t: TxId)
    requires Solvent(s) && t < |s.txs| && ReceiveMoney(s, t).Ok?
    ensures Stays(s, ReceiveMoney(s, t).value)
  {
    hide Solvent, SameShape, LandRepayment, SettleRepaid, PayIn;
    var w := s.txs[t].to.value;
    SolventFacts(s);
    if IsRepayment(s.txs[t]) {
      var s1 := LandRepayment(s, t, w).value;
      if s.txs[t].installment.Some? && s.txs[t].installment.value >= |s.installments| {
        UnchargeableStays(s, t, w);
      } else {
        LandRepaymentStays(s, t);
      }
      SettleRepaidStays(s1, s.txs[t], t);
      StaysThrough(s, s1, SettleRepaid(s1, s.txs[t], t).value);
    } else {
      PayInStep(s, t, w, s.txs[t].amount);
      var s1 := PayIn(s, t, w, s.txs[t].amount).value;
      MoneyStays(s, s1);
      StatusStays(s1, t, Completed);
      StaysThrough(s, s1, SetStatus(s1, t, Completed));
    }
  }

  lemma {:induction false} VerifySolvent(s: State, t: TxId, paid: bool, now: int, today: Date)
    requires Solvent(s) && OnCalendar(today) && Verify(s, t, paid, now, today).Ok?
    ensures Solvent(Verify(s, t, paid, now, today).value)
  {
    hide Solvent, SameShape, CompleteTopUp, ReceiveMoney, Settle;
    SolventFacts(s);
    if s.txs[t].completes.Some? {
      if CompleteTopUp(s, t, today).Ok? {
        TopUpSolvent(s, t, today);
      }
    } else if s.txs[t].kind == Deposit || s.txs[t].installment.Some? {
      if ReceiveMoney(s, t).Ok? {
        ReceiveStays(s, t);
      }
    } else if s.txs[t].status == Awaiting && paid {
      SettleStays(s, t, None, today);
    }
  }

  lemma {:induction false} WriteOffStays(s: State, w: WalletId, quit: bool, key: string)
    requires Solvent(s) && WriteOff(s, w, quit, key).Ok?
    ensures Stays(s, WriteOff(s, w, quit, key).value)
  {
    hide Solvent, SameShape, WriteOff, Route, PostAbsorbed, MarkAllPaid, Parts, RepaymentSplit, OutstandingRows;
    var r, parts, s2 := WriteOffUnfolds(s, w, quit, key);
    var main := s.wallets[w].repository.value;
    var split := RepaymentSplit(OutstandingRows(s.installments, w));
    var total := split.fee + split.penalty + if quit then 0 else s.wallets[w].typ.terms.unblockFee;
    RouteStays(s, main, parts, true, if quit then OfQuit(key) else OfOverdue(key));
    var row := Row(Adjustment, Completed, Some(main), None, total, Client(key));
    InsertStays(r.state, row);
    var s1 := r.state.(txs := r.state.txs + [row]);
    SolventFacts(s1);
    AbsorbedStep(s1, |r.state.txs|, main, total - r.unrouted, r.legs);
    MoneyStays(s1, s2);
    MarkAllPaidStays(s2, w, |r.state.txs|);
    StaysThrough(s, r.state, s1);
    StaysThrough(s, s1, s2);
    StaysThrough(s, s2, MarkAllPaid(s2, w, |r.state.txs|).value);
  }

  // ---- Refunds ----

  lemma {:induction false} ReturnDrawStays(s: State, p: TxId, customer: WalletId, r: WalletId, amount: int)
    requires Solvent(s) && customer < |s.wallets| && ReturnDraw(s, p, customer, r, amount).Ok?
    ensures Stays(s, ReturnDraw(s, p, customer, r, amount).value)
    ensures ReturnDraw(s, p, customer, r, amount).value.journal == s.journal
  {
    hide Solvent, SameShape;
    var s1 := SetVirtual(s, customer, s.wallets[customer].virtualAmount + amount);
    VirtualStays(s, customer, s.wallets[customer].virtualAmount + amount);
    var a := Row(Transfer, Completed, Some(customer), Some(r), amount, CreditFundReverse(p));
    InsertStays(s1, a);
    var s2 := Insert(s1, a).value;
    var b := Row(Virtual, Completed, None, Some(customer), amount, CreditDrawReverse(p));
    InsertStays(s2, b);
    StaysThrough(s, s1, s2);
    StaysThrough(s, s2, Insert(s2, b).value);
  }

  lemma {:induction false} UnwindStays(s: State, p: TxId, customer: WalletId, r: WalletId, unpaid: int, givesBack: bool)
    requires Solvent(s) && customer < |s.wallets| && UnwindCredit(s, p, customer, r, unpaid, givesBack).Ok?
    ensures var s' := UnwindCredit(s, p, customer, r, unpaid, givesBack).value;
            Stays(s, s') && forall v: WalletId :: Balance(s'.journal, v) == Balance(s.journal, v)
  {
    hide Solvent, SameShape, ReturnDraw, PostReceivable, HasPlan;
    Unchanged(s);
    var s1 := if givesBack then ReturnDraw(s, p, customer, r, unpaid).value else s;
    if givesBack {
      ReturnDrawStays(s, p, customer, r, unpaid);
    }
    if HasPlan(s1.installments, p) {
      var s2 := s1.(installments := CancelPlan(s1.installments, p));
      PlansStay(s1, s2.installments);
      ReceivableStays(s2, p, customer, if unpaid > 0 then -unpaid else 0);
      StaysThrough(s, s1, s2);
      StaysThrough(s, s2, UnwindCredit(s, p, customer, r, unpaid, givesBack).value);
    }
  }

  /** The merchant pays back what it still has; whoever receives, no balance falls below zero. */
  lemma {:induction false} PaybackStep(s: State, tx: TxId, merchant: WalletId, amount: int, credits: seq<Movement>)
    requires MoneyOk(s.wallets, s.journal) && merchant < |s.wallets| && Held(s.wallets, credits)
    requires Balance(s.journal, merchant) >= amount
    requires Post(s, tx, MultiLegs([Movement(Own(s, merchant), amount)], credits)).Ok?
    ensures MoneyStep(s, Post(s, tx, MultiLegs([Movement(Own(s, merchant), amount)], credits)).value)
  {
    var debit := Movement(Own(s, merchant), amount);
    forall w: WalletId ensures Balance(s.journal, w) >= Sum([debit], Moved(w)) {
      SumOne(debit, Moved(w));
      HeldMoney(s, w);
    }
    MultiStep(s, tx, [debit], credits);
  }

  lemma {:induction false} HeldUnder(s: State, s': State, w: WalletId, amount: int)
    requires SameShape(s.wallets, s'.wallets) && w < |s.wallets|
    ensures Own(s', w) == Own(s, w) && Held(s'.wallets, [Movement(Own(s, w), amount)])
  {
  }

  lemma {:induction false} HeldTogether(ws: seq<Wallet>, a: seq<Movement>, b: seq<Movement>)
    requires Held(ws, a) && Held(ws, b)
    ensures Held(ws, a + b)
  {
  }

  lemma {:induction false} RefundCompletedStays(s: State, p: TxId, key: string)
    requires Solvent(s) && p < |s.txs| && RefundCompleted(s, p, key).Ok?
    ensures Stays(s, RefundCompleted(s, p, key).value)
  {
    hide Solvent, UnwindCredit, UnpaidDraw, FundingRepository, MultiLegs, FindKey, Accepts;
    var customer, merchant, amount := s.txs[p].from.value, s.txs[p].to.value, s.txs[p].amount;
    var unpaid := UnpaidDraw(s, p);
    var givesBack := FindKey(s.txs, CreditFund(p)).Some? && unpaid > 0;
    var r := FundingRepository(s, p, customer);
    UnwindStays(s, p, customer, r, unpaid, givesBack);
    var s1 := UnwindCredit(s, p, customer, r, unpaid, givesBack).value;
    StatusStays(s1, p, Reversed);
    var s2 := SetStatus(s1, p, Reversed);
    InsertStays(s2, RefundRow(merchant, customer, amount, p, key));
    var s3 := Insert(s2, RefundRow(merchant, customer, amount, p, key)).value;
    StaysThrough(s, s1, s2);
    StaysThrough(s, s2, s3);
    HeldUnder(s, s3, merchant, amount);
    HeldUnder(s, s3, customer, amount - unpaid);
    HeldUnder(s, s3, r, unpaid);
    var own := [Movement(Own(s, customer), amount - unpaid)];
    var back := if givesBack then [Movement(Own(s, r), unpaid)] else [];
    HeldTogether(s3.wallets, own, back);
    SolventFacts(s3);
    assert Balance(s3.journal, merchant) == Balance(s.journal, merchant);
    PaybackStep(s3, |s2.txs|, merchant, amount, own + back);
    MoneyStays(s3, RefundCompleted(s, p, key).value);
    StaysThrough(s, s3, RefundCompleted(s, p, key).value);
  }

  lemma {:induction false} RefundStays(s: State, user: nat, p: TxId, key: string)
    requires Solvent(s) && Refund(s, user, p, key).Ok?
    ensures Stays(s, Refund(s, user, p, key).value)
  {
    hide Solvent, SameShape, RefundCompleted;
    if s.txs[p].status == Awaiting {
      StatusStays(s, p, Reversed);
    } else {
      RefundCompletedStays(s, p, key);
    }
  }

  // ---- Payout sweeps ----

  /** At most `amount` left the wallet. */
  ghost predicate Leaves(s: State, s': State, w: WalletId, amount: int) {
    Stays(s, s') && s'.wallets == s.wallets && Balance(s'.journal, w) >= Balance(s.journal, w) - amount
  }

  lemma {:induction false} LeavesThrough(a: State, b: State, c: State, w: WalletId, x: int, y: int)
    requires Leaves(a, b, w, x) && Leaves(b, c, w, y)
    ensures Leaves(a, c, w, x + y)
  {
    hide Solvent, SameShape;
    StaysThrough(a, b, c);
  }

  lemma {:induction false} FeeLeaves(s: State, payer: Payer, fee: int, key: Key, purchase: Option<TxId>)
    requires Solvent(s) && PayerOk(s, payer) && payer.feeRepository.Some? && 0 < fee <= Balance(s.journal, payer.wallet)
    requires PayOutFee(s, payer, fee, key, purchase).Ok?
    ensures Leaves(s, PayOutFee(s, payer, fee, key, purchase).value, payer.wallet, fee)
  {
    hide Solvent, SameShape;
    var w := payer.wallet;
    var row := Row(Transfer, Completed, Some(w), payer.feeRepository, fee, PayoutFee(key)).(related := purchase);
    InsertStays(s, row);
    var u := Insert(s, row).value;
    SolventFacts(u);
    WalletToWalletStep(u, |s.txs|, w, payer.feeRepository.value, fee);
    MoneyStays(u, PayOutFee(s, payer, fee, key, purchase).value);
    StaysThrough(s, u, PayOutFee(s, payer, fee, key, purchase).value);
  }

  lemma {:induction false} NetLeaves(s: State, payer: Payer, net: int, key: Key, purchase: Option<TxId>)
    requires Solvent(s) && PayerOk(s, payer) && 0 < net <= Balance(s.journal, payer.wallet)
    requires PayNet(s, payer, net, key, purchase).Ok?
    ensures Leaves(s, PayNet(s, payer, net, key, purchase).value, payer.wallet, net)
  {
    hide Solvent, SameShape;
    var w := payer.wallet;
    var cleared := payer.rail.None? || |s.txs| !in payer.failed;
    var row := Row(Withdraw, Completed, Some(w), None, net, key).(related := purchase, cleared := cleared);
    InsertStays(s, row);
    var u := Insert(s, row).value;
    SolventFacts(u);
    AgainstStep(u, |s.txs|, w, -net, CashAccount(cleared));
    MoneyStays(u, PayNet(s, payer, net, key, purchase).value);
    StaysThrough(s, u, PayNet(s, payer, net, key, purchase).value);
  }

  lemma {:induction false} NothingLeaves(s: State, w: WalletId)
    requires Solvent(s)
    ensures Leaves(s, s, w, 0)
  {
  }

  lemma {:induction false} PayOutLeaves(s: State, payer: Payer, amount: int, key: Key, purchase: Option<TxId>)
    requires Solvent(s) && PayerOk(s, payer) && 0 <= amount <= Balance(s.journal, payer.wallet)
    requires PayOut(s, payer, amount, key, purchase).Ok?
    ensures Leaves(s, PayOut(s, payer, amount, key, purchase).value, payer.wallet, amount)
  {
    hide Solvent, SameShape, PayOutFee, PayNet;
    var fee := FeeOfPayout(payer, amount);
    var s1 := if fee > 0 then PayOutFee(s, payer, fee, key, purchase).value else s;
    if fee > 0 {
      FeeLeaves(s, payer, fee, key, purchase);
    } else {
      NothingLeaves(s, payer.wallet);
    }
    if amount > fee {
      NetLeaves(s1, payer, amount - fee, key, purchase);
      LeavesThrough(s, s1, PayOut(s, payer, amount, key, purchase).value, payer.wallet, fee, amount - fee);
    }
  }

  lemma {:induction false} PaySlicesLeaves(s: State, payer: Payer, p: TxId, slices: seq<int>)
    requires Solvent(s) && PayerOk(s, payer) && NonNegative(slices)
    requires Sum(slices, Identity()) <= Balance(s.journal, payer.wallet) && PaySlices(s, payer, p, slices).Ok?
    ensures Leaves(s, PaySlices(s, payer, p, slices).value, payer.wallet, Sum(slices, Identity()))
  {
    hide Solvent, SameShape, PayOut;
    if |slices| == 0 {
      NothingLeaves(s, payer.wallet);
    } else {
      var n := |slices| - 1;
      PrefixSum(slices);
      PaySlicesLeaves(s, payer, p, slices[..n]);
      var s1 := PaySlices(s, payer, p, slices[..n]).value;
      PayOutLeaves(s1, payer, slices[n], SweepSlice(payer.wallet, p, n, payer.minute), Some(p));
      LeavesThrough(s, s1, PaySlices(s, payer, p, slices).value, payer.wallet, Sum(slices[..n], Identity()), slices[n]);
    }
  }

  lemma {:induction false} SlicesPay(s: State, p: TxId, w: WalletId)
    requires Solvent(s) && p < |s.txs|
    ensures NonNegative(SlicesOf(s, p, w)) && Sum(SlicesOf(s, p, w), Identity()) >= 0
  {
    var rows := if p in s.overrides then s.overrides[p] else if w in s.defaults then s.defaults[w] else [];
    if p in s.overrides {
      assert OwnSplitGood(s.txs, p, s.overrides[p]);
    } else if |rows| > 0 {
      GoodSlices(rows, s.txs[p].amount);
    }
    SumNonNegative(SlicesOf(s, p, w), Identity());
  }

  lemma {:induction false} MarkLeaves(s: State, p: TxId, w: WalletId)
    requires Solvent(s) && p < |s.txs|
    ensures Leaves(s, Mark(s, p), w, 0)
  {
    RowsStay(s, Mark(s, p).txs);
  }

  lemma {:induction false} SweepingLeaves(s: State, payer: Payer, n: nat, balance: int)
    requires Solvent(s) && PayerOk(s, payer) && n <= |s.txs| && 0 <= balance <= Balance(s.journal, payer.wallet)
    requires SweepPurchases(s, payer, n, balance).Ok?
    ensures var done := SweepPurchases(s, payer, n, balance).value;
            Leaves(s, done.state, payer.wallet, balance - done.remaining) && 0 <= done.remaining
  {
    hide Solvent, SameShape, PaySlices, SlicesOf;
    if n == 0 {
      NothingLeaves(s, payer.wallet);
    } else {
      var p := n - 1;
      SweepingLeaves(s, payer, p, balance);
      var done := SweepPurchases(s, payer, p, balance).value;
      var slices := SlicesOf(s, p, payer.wallet);
      SlicesPay(s, p, payer.wallet);
      if Unsettled(s.txs[p], payer.wallet) && Sum(slices, Identity()) <= done.remaining {
        PaySlicesLeaves(done.state, payer, p, slices);
        var s1 := PaySlices(done.state, payer, p, slices).value;
        MarkLeaves(s1, p, payer.wallet);
        LeavesThrough(done.state, s1, Mark(s1, p), payer.wallet, Sum(slices, Identity()), 0);
        LeavesThrough(s, done.state, Mark(s1, p), payer.wallet, balance - done.remaining, Sum(slices, Identity()));
      }
    }
  }

  lemma {:induction false} SweepStays(s: State, w: WalletId, minute: nat, failed: set<TxId>)
    requires Solvent(s) && SweepWallet(s, w, minute, failed).Ok?
    ensures Stays(s, SweepWallet(s, w, minute, failed).value)
  {
    hide Solvent, SameShape, SweepPurchases, PayOut, SplitMode;
    if Balance(s.journal, w) <= 0 {
      Unchanged(s);
    } else {
      var payer := PayerFor(s, w, minute, failed).value;
      if !SplitMode(s, w) {
        PayOutLeaves(s, payer, Balance(s.journal, w), Sweep(w, minute), None);
      } else {
        SweepingLeaves(s, payer, |s.txs|, Balance(s.journal, w));
      }
    }
  }

  // ---- Everything else ----

  /** The guard the validators do not have: no charge is cut into a negative slice by its own split, and no
      purchase whatsoever by a wallet's new defaults. */
  predicate SplitsWell(op: Op) {
    match op
    case OpCharge(to, amount, splits, expires, key) => splits.Some? ==> HeadWithin(splits.value, amount)
    case OpDefaults(w, percents) => DefaultsWithinWhole(percents)
    case _ => true
  }

  lemma {:induction false} ChargeSolvent(s: State, to: WalletId, amount: int, splits: Option<seq<SplitDto>>,
      expires: int, key: string)
    requires Solvent(s) && OpenCharge(s, to, amount, splits, expires, key).Ok?
    ensures Solvent(OpenCharge(s, to, amount, splits, expires, key).value)
       <==> (splits.Some? ==> HeadWithin(splits.value, amount))
  {
    hide FindKey, LinksOk, MoneyOk, SplitsOk, ValidChargeOverrides, StoredRows, HeadWithin, SlicesNonNegative;
    InsertStays(s, Row(Purchase, Awaiting, None, Some(to), amount, Client(key)).(expires := Some(expires)));
    var s' := OpenCharge(s, to, amount, splits, expires, key).value;
    if splits.Some? {
      AcceptedSplitGoodExactly(splits.value, amount);
      OwnSplitAdded(s'.txs, s.overrides, s.defaults, |s.txs|, StoredRows(splits.value));
    }
  }

  lemma {:induction false} DefaultsSolvent(s: State, w: WalletId, percents: seq<int>)
    requires Solvent(s) && ReplaceDefaults(s, w, percents).Ok?
    ensures Solvent(ReplaceDefaults(s, w, percents).value) <==> DefaultsWithinWhole(percents)
  {
    hide LinksOk, MoneyOk, SplitsOk, ValidWalletDefaults, DefaultsWithinWhole, SlicesNonNegative;
    AcceptedDefaultsGoodExactly(percents);
    DefaultsAreRows(percents);
    DefaultsReplaced(s.txs, s.overrides, s.defaults, w, DefaultRows(percents));
  }

  lemma {:induction false} TopUpOpenedSolvent(s: State, p: TxId, shortfall: int, expires: int)
    requires Solvent(s) && OpenTopUp(s, p, shortfall, expires).Ok?
    ensures Solvent(OpenTopUp(s, p, shortfall, expires).value)
  {
    hide Solvent, SameShape, Attempts;
    if !exists i :: 0 <= i < |s.txs| && s.txs[i].completes == Some(p) && s.txs[i].status == Awaiting {
      SolventFacts(s);
      var s1 := s.(txs := s.txs[p := s.txs[p].(expires := Some(expires))]);
      RowsStay(s, s1.txs);
      InsertStays(s1, Row(Deposit, Awaiting, None, None, shortfall, SupportTopUp(p, Attempts(s.txs, p)))
                        .(expires := Some(expires), completes := Some(p)));
    }
  }

  predicate OnlyInserts(op: Op) {
    op.OpDeposit? || op.OpPurchase? || op.OpRepay? || op.OpCollect?
  }

  lemma {:induction false} InsertedSolvent(s: State, op: Op)
    requires Solvent(s) && OnlyInserts(op) && Step(s, op).Ok?
    ensures Solvent(Step(s, op).value)
  {
    hide Solvent, SameShape, FindKey, OutstandingRows;
    SolventFacts(s);
    RowsStay(s, Step(s, op).value.txs);
    assert Step(s, op).value == s.(txs := Step(s, op).value.txs);
  }

  lemma {:induction false} AttachedSolvent(s: State, id: TxId, user: nat, w: WalletId)
    requires Solvent(s) && AttachWallet(s, id, user, w).Ok?
    ensures Solvent(AttachWallet(s, id, user, w).value)
  {
    hide Solvent, SameShape;
    SolventFacts(s);
    RowsStay(s, AttachWallet(s, id, user, w).value.txs);
  }

  lemma {:induction false} GrantSolvent(s: State, user: nat, r: WalletId, person: nat, typ: WalletType, amount: int,
      key: string)
    requires Solvent(s) && GrantCredit(s, user, r, person, typ, amount, key).Ok?
    ensures Solvent(GrantCredit(s, user, r, person, typ, amount, key).value)
  {
    hide FindKey, MoneyOk;
    var s1 := SetVirtual(s, r, s.wallets[r].virtualAmount - amount);
    VirtualStays(s, r, s.wallets[r].virtualAmount - amount);
    var ws := s1.wallets + [Wallet(typ, person, Some(r), amount, false, false, None)];
    assert s.wallets[r].repository.None? by {
      assert Linked(s.wallets, r);
    }
    forall w | 0 <= w < |ws| ensures Linked(ws, w) {
      if w < |s1.wallets| {
        assert Linked(s1.wallets, w);
      }
    }
    MoreHolders(s1.wallets, ws[|s1.wallets|], s1.journal);
  }

  lemma {:induction false} ReclaimSolvent(s: State, w: WalletId, key: string)
    requires Solvent(s) && CloseAndReclaim(s, w, key).Ok?
    ensures Solvent(CloseAndReclaim(s, w, key).value)
  {
    hide Solvent, FindKey, OutstandingRows, Balance;
    SolventFacts(s);
    var s' := CloseAndReclaim(s, w, key).value;
    RowsStay(s, s'.txs);
    ShapeStays(s.(txs := s'.txs), s'.wallets);
    assert s' == s.(txs := s'.txs, wallets := s'.wallets);
  }

  lemma {:induction false} FlagsSolvent(s: State, op: Op)
    requires Solvent(s) && (op.OpClose? || op.OpReopen? || op.OpPenalties? || op.OpDueCheck?) && Step(s, op).Ok?
    ensures Solvent(Step(s, op).value)
  {
    hide Solvent, Balance, TooLate, AccrueRow, DueRow;
    var s' := Step(s, op).value;
    ShapeStays(s, s'.wallets);
    PlansStay(s.(wallets := s'.wallets), s'.installments);
    assert s' == s.(wallets := s'.wallets, installments := s'.installments);
  }

  lemma {:induction false} ExpiredSolvent(s: State, id: TxId)
    requires Solvent(s) && ExpirePending(s, id).Ok?
    ensures Solvent(ExpirePending(s, id).value)
  {
    hide Solvent, SameShape;
    StatusStays(s, id, Reversed);
  }

  /** The only requests that can leave the system exposed are a charge that its own split cuts into a negative
      slice, and defaults that would do so to some purchase. */
  lemma {:induction false} StepSolventExactly(s: State, op: Op)
    requires Solvent(s) && Step(s, op).Ok?
    ensures Solvent(Step(s, op).value) <==> SplitsWell(op)
  {
    hide Solvent, SameShape, WithdrawFrom, TransferTo, Adjust, Verify, WriteOff, GrantCredit, CloseAndReclaim, Refund,
      SweepWallet, OpenTopUp, AttachWallet, ExpirePending, OpenDeposit, OpenPurchase, OpenCharge, OpenRepayment,
      OpenCollection, CloseWallet, ReopenWallet, ApplyPenalties, CheckDue, ReplaceDefaults, HeadWithin,
      DefaultsWithinWhole;
    match op
    case OpWithdraw(user, w, amount, cleared, key) => WithdrawStays(s, user, w, amount, cleared, key);
    case OpTransfer(user, from, to, amount, key) => TransferStays(s, user, from, to, amount, key);
    case OpAdjust(w, amount, key) => AdjustStays(s, w, amount, key);
    case OpCharge(to, amount, splits, expires, key) => ChargeSolvent(s, to, amount, splits, expires, key);
    case OpAttach(tx, user, w) => AttachedSolvent(s, tx, user, w);
    case OpTopUp(p, shortfall, expires) => TopUpOpenedSolvent(s, p, shortfall, expires);
    case OpExpire(tx) => ExpiredSolvent(s, tx);
    case OpVerify(tx, paid, now, today) => VerifySolvent(s, tx, paid, now, today);
    case OpWriteOff(w, quit, key) => WriteOffStays(s, w, quit, key);
    case OpGrant(user, r, person, typ, amount, key) => GrantSolvent(s, user, r, person, typ, amount, key);
    case OpReclaim(w, key) => ReclaimSolvent(s, w, key);
    case OpRefund(user, tx, key) => RefundStays(s, user, tx, key);
    case OpSweep(w, minute, failed) => SweepStays(s, w, minute, failed);
    case OpDefaults(w, percents) => DefaultsSolvent(s, w, percents);
    case _ => if OnlyInserts(op) { InsertedSolvent(s, op); } else { FlagsSolvent(s, op); }
  }

  predicate AllSplitWell(ops: seq<Op>) {
    forall i :: 0 <= i < |ops| ==> SplitsWell(ops[i])
  }

  lemma {:induction false} RunStaysSolvent(s: State, ops: seq<Op>)
    requires Solvent(s) && AllSplitWell(ops)
    ensures Solvent(Run(s, ops))
  {
    hide Solvent, Step, SplitsWell;
    if |ops| > 0 {
      var init, op := ops[..|ops| - 1], ops[|ops| - 1];
      RunStaysSolvent(s, init);
      if Step(Run(s, init), op).Ok? {
        StepSolventExactly(Run(s, init), op);
      }
    }
  }

  lemma {:induction false} FreshIsSolvent(s: State)
    requires Fresh(s)
    ensures Solvent(s)
  {
    forall w: WalletId ensures Balance(s.journal, w) == 0 {
      SumZero(s.journal, OverLegs(BalanceIn(w)));
    }
    forall c: CurrencyId ensures JournalSum(s.journal, SignedIn(c)) == 0 {
      SumZero(s.journal, OverLegs(SignedIn(c)));
    }
  }

  /** Over every run of requests from a fresh system, safe for the credit lines or not: debits equal
      credits in every currency, no wallet is overdrawn, and the control accounts and the receivable
      account agree with the wallets filed under them. */
  lemma {:induction false} MoneyIsSoundAlways(s: State, ops: seq<Op>)
    requires Fresh(s) && AllSplitWell(ops)
    ensures var s' := Run(s, ops);
            && Balanced(s'.journal)
            && (forall w: WalletId :: Balance(s'.journal, w) >= 0)
            && (forall c: CurrencyId :: Sum(CHART, NetRow(s'.journal, c)) == 0)
            && (forall c: CurrencyId, code: AccountCode | code == CustomerWallets || code == RepositoryFunds
                || code == FeeRevenue ::
                  -AccountNet(s'.journal, code, c) == Sum(HoldersOf(s'.wallets), BalanceRow(s'.journal, code, c)))
            && (forall c: CurrencyId ::
                  AccountNet(s'.journal, CreditReceivable, c)
                      == Sum(HoldersOf(s'.wallets), ReceivableRow(s'.journal, c)))
  {
    hide Run, Fresh, AllSplitWell;
    FreshIsSolvent(s);
    RunStaysSolvent(s, ops);
    var s' := Run(s, ops);
    forall c: CurrencyId ensures Sum(CHART, NetRow(s'.journal, c)) == 0 {
      TrialBalanceNetsToZero(s'.journal, c);
    }
    forall c: CurrencyId, code: AccountCode | code == CustomerWallets || code == RepositoryFunds || code == FeeRevenue
      ensures -AccountNet(s'.journal, code, c) == Sum(HoldersOf(s'.wallets), BalanceRow(s'.journal, code, c))
    {
      ControlAccountReconciles(HoldersOf(s'.wallets), s'.journal, code, c);
    }
    forall c: CurrencyId
      ensures AccountNet(s'.journal, CreditReceivable, c) == Sum(HoldersOf(s'.wallets), ReceivableRow(s'.journal, c))
    {
      ReceivableAccountReconciles(HoldersOf(s'.wallets), s'.journal, c);
    }
  }
}
