/** What every request keeps of the tables, safe or not: rows refer to rows that exist, nothing is removed,
    and a row only changes in the few ways its kind allows. No book is looked at here. */
module History {
  import opened Common
  import opened Sums
  import opened Ledger
  import opened Installments
  import opened Settlement
  import opened Bank
  import opened BankInvariant
  import opened CreditLines
  import opened MoneyMoves
  import opened Purchases
  import opened Repayments
  import opened Payouts

  predicate BackedOk(ws: seq<Wallet>) {
    forall w :: 0 <= w < |ws| ==> LinkOk(ws, w)
  }

  ghost predicate Formed(s: State) {
    && BackedOk(s.wallets)
    && RowsOk(|s.wallets|, |s.installments|, s.txs)
    && InstallmentsOk(s.wallets, s.txs, s.installments)
    && PlansDrawn(s.txs, s.installments)
  }

  // ---- How rows may change ----

  predicate RowFollows(a: Tx, b: Tx) {
    && b == a.(from := b.from, to := b.to, amount := b.amount, status := b.status, expires := b.expires,
               settled := b.settled)
    && (a.settled ==> b.settled) && (a.from.Some? ==> b.from == a.from)
    && (a.installment.Some? || a.kind == Purchase ==> b.to == a.to)
    && (a.kind == Purchase ==> b.amount == a.amount)
    && (a.status != Awaiting ==> b.status != Awaiting)
    && (a.status != Awaiting && a.kind != Purchase ==> b == a)
    && (a.status != Awaiting && a.related.Some? ==> b == a)
  }

  /** A dropped or refunded purchase stays REVERSED, unless it is one of `revived`. */
  predicate StaysReversed(a: Tx, b: Tx, id: TxId, revived: set<TxId>) {
    a.status == Reversed && id !in revived ==> b.status == Reversed
  }

  predicate PlanFollows(i: Installment, k: Installment) {
    && k == i.(amount := k.amount, penaltyDays := k.penaltyDays, dueChecked := k.dueChecked,
               penaltyApplied := k.penaltyApplied, status := k.status)
    && (i.status == Paid ==> k.status == Paid) && (!Unpaid(i) ==> !Unpaid(k))
  }

  /** A repayment is charged for an installment that exists, to the repository behind its line. */
  predicate Home(s: State, t: Tx) {
    t.installment.Some? ==>
      && t.installment.value < |s.installments| && s.installments[t.installment.value].wallet < |s.wallets|
      && t.to == s.wallets[s.installments[t.installment.value].wallet].repository
  }

  predicate RepaysHome(s: State) {
    forall t :: 0 <= t < |s.txs| ==> Home(s, s.txs[t])
  }

  ghost predicate Follows(s: State, s': State, revived: set<TxId>) {
    && |s.wallets| <= |s'.wallets| && SameShape(s.wallets, s'.wallets[..|s.wallets|])
    && |s.txs| <= |s'.txs| && (forall t :: 0 <= t < |s.txs| ==> RowFollows(s.txs[t], s'.txs[t]))
    && (forall t :: 0 <= t < |s.txs| ==> StaysReversed(s.txs[t], s'.txs[t], t, revived))
    && |s.installments| <= |s'.installments|
    && (forall i :: 0 <= i < |s.installments| ==> PlanFollows(s.installments[i], s'.installments[i]))
    && s.journal <= s'.journal && (RepaysHome(s) ==> RepaysHome(s'))
  }

  ghost predicate GrownBut(s: State, s': State, revived: set<TxId>) {
    Formed(s') && Follows(s, s', revived)
  }

  ghost predicate Grown(s: State, s': State) {
    GrownBut(s, s', {})
  }

  lemma {:induction false} GrownBoth(a: State, b: State, c: State, first: set<TxId>, second: set<TxId>)
    requires GrownBut(a, b, first) && GrownBut(b, c, second)
    ensures GrownBut(a, c, first + second)
  {
    hide Formed;
    forall t | 0 <= t < |a.txs|
      ensures RowFollows(a.txs[t], c.txs[t]) && StaysReversed(a.txs[t], c.txs[t], t, first + second)
    {
      assert RowFollows(a.txs[t], b.txs[t]) && RowFollows(b.txs[t], c.txs[t]);
      assert StaysReversed(a.txs[t], b.txs[t], t, first) && StaysReversed(b.txs[t], c.txs[t], t, second);
    }
    forall i | 0 <= i < |a.installments| ensures PlanFollows(a.installments[i], c.installments[i]) {
      assert PlanFollows(a.installments[i], b.installments[i]) && PlanFollows(b.installments[i], c.installments[i]);
    }
    forall w | 0 <= w < |a.wallets|
      ensures c.wallets[w].typ == a.wallets[w].typ && c.wallets[w].repository == a.wallets[w].repository
    {
      assert b.wallets[..|a.wallets|][w] == b.wallets[w] && c.wallets[..|b.wallets|][w] == c.wallets[w];
    }
    assert |a.journal| <= |b.journal| <= |c.journal|;
    assert forall k :: 0 <= k < |a.journal| ==> c.journal[k] == b.journal[k] == a.journal[k];
  }

  lemma {:induction false} GrownThrough(a: State, b: State, c: State)
    requires Grown(a, b) && Grown(b, c)
    ensures Grown(a, c)
  {
    hide Formed, Follows;
    var none: set<TxId> := {};
    GrownBoth(a, b, c, none, none);
    assert none + none == none;
  }

  lemma {:induction false} GrownSame(s: State)
    requires Formed(s)
    ensures Grown(s, s)
  {
  }

  // ---- The single writes ----

  /** Balances, splits and support types are no part of it. */
  lemma {:induction false} PostsGrow(s: State, s': State)
    requires Formed(s) && s' == s.(journal := s'.journal) && s.journal <= s'.journal
    ensures Grown(s, s')
  {
  }

  lemma {:induction false} PlansStill(txs: seq<Tx>, installments: seq<Installment>, more: seq<Tx>)
    requires PlansDrawn(txs, installments)
    ensures PlansDrawn(txs + more, installments)
  {
    if |more| == 0 {
      assert txs + more == txs;
    } else {
      var n := |more| - 1;
      PlansStill(txs, installments, more[..n]);
      PlansStayDrawn(txs + more[..n], installments, more[n]);
      assert txs + more == (txs + more[..n]) + [more[n]];
    }
  }

  /** New rows at the end. */
  lemma {:induction false} RowsGrow(s: State, more: seq<Tx>)
    requires Formed(s)
    requires forall id :: |s.txs| <= id < |s.txs + more| ==> RowOk(|s.wallets|, |s.installments|, s.txs + more, id)
    requires forall k :: 0 <= k < |more| ==> Home(s, more[k])
    ensures Grown(s, s.(txs := s.txs + more))
  {
    var txs := s.txs + more;
    forall id | 0 <= id < |txs| ensures RowOk(|s.wallets|, |s.installments|, txs, id) {
      if id < |s.txs| {
        assert RowOk(|s.wallets|, |s.installments|, s.txs, id);
      }
    }
    forall i | 0 <= i < |s.installments| ensures InstallmentOk(s.wallets, txs, s.installments[i]) {
      assert InstallmentOk(s.wallets, s.txs, s.installments[i]);
    }
    PlansStill(s.txs, s.installments, more);
  }

  lemma {:induction false} RowGrows(s: State, t: Tx)
    requires Formed(s) && RowOk(|s.wallets|, |s.installments|, s.txs + [t], |s.txs|) && Home(s, t)
    ensures Grown(s, s.(txs := s.txs + [t]))
  {
    hide Formed, RowOk;
    RowsGrow(s, [t]);
  }

  lemma {:induction false} InsertGrows(s: State, t: Tx)
    requires Formed(s) && Insert(s, t).Ok? && RowOk(|s.wallets|, |s.installments|, s.txs + [t], |s.txs|) && Home(s, t)
    ensures Grown(s, Insert(s, t).value) && Insert(s, t).value == s.(txs := s.txs + [t])
  {
    hide Formed, RowOk;
    RowGrows(s, t);
  }

  function Revived(a: Tx, b: Tx, id: TxId): set<TxId> {
    if a.status == Reversed && b.status != Reversed then {id} else {}
  }

  lemma {:induction false} ReplaceGrows(s: State, id: TxId, t: Tx)
    requires Formed(s) && id < |s.txs| && MayReplace(s.installments, s.txs[id], t, id) && RowFollows(s.txs[id], t)
    requires RowOk(|s.wallets|, |s.installments|, s.txs[id := t], id)
    ensures GrownBut(s, s.(txs := s.txs[id := t]), Revived(s.txs[id], t, id))
  {
    var txs := s.txs[id := t];
    forall k | 0 <= k < |txs| ensures RowOk(|s.wallets|, |s.installments|, txs, k) {
      assert RowOk(|s.wallets|, |s.installments|, s.txs, k);
    }
    forall i | 0 <= i < |s.installments|
      ensures InstallmentOk(s.wallets, txs, s.installments[i])
      ensures FindKey(txs, CreditFund(s.installments[i].purchase)).Some?
    {
      assert InstallmentOk(s.wallets, s.txs, s.installments[i]);
      FindKeyUpdate(s.txs, id, t, CreditFund(s.installments[i].purchase));
    }
  }

  /** Ceilings and flags. */
  lemma {:induction false} ShapeGrows(s: State, vs: seq<Wallet>)
    requires Formed(s) && SameShape(s.wallets, vs)
    ensures Grown(s, s.(wallets := vs))
  {
    forall w | 0 <= w < |vs| ensures LinkOk(vs, w) {
      assert LinkOk(s.wallets, w);
    }
    forall i | 0 <= i < |s.installments| ensures InstallmentOk(vs, s.txs, s.installments[i]) {
      assert InstallmentOk(s.wallets, s.txs, s.installments[i]);
    }
    assert vs[..|s.wallets|] == vs;
  }

  lemma {:induction false} VirtualGrows(s: State, w: WalletId, amount: int)
    requires Formed(s) && w < |s.wallets|
    ensures Grown(s, SetVirtual(s, w, amount))
  {
    hide Formed, Follows;
    ShapeGrows(s, SetVirtual(s, w, amount).wallets);
  }

  lemma {:induction false} WalletGrows(s: State, wallet: Wallet)
    requires Formed(s) && LinkOk(s.wallets + [wallet], |s.wallets|)
    ensures Grown(s, s.(wallets := s.wallets + [wallet]))
  {
    var vs := s.wallets + [wallet];
    forall w | 0 <= w < |vs| ensures LinkOk(vs, w) {
      if w < |s.wallets| {
        assert LinkOk(s.wallets, w);
      }
    }
    forall id | 0 <= id < |s.txs| ensures RowOk(|vs|, |s.installments|, s.txs, id) {
      assert RowOk(|s.wallets|, |s.installments|, s.txs, id);
    }
    forall i | 0 <= i < |s.installments| ensures InstallmentOk(vs, s.txs, s.installments[i]) {
      assert InstallmentOk(s.wallets, s.txs, s.installments[i]);
    }
    assert vs[..|s.wallets|] == s.wallets;
  }

  /** Installments in place. */
  lemma {:induction false} PlansGrow(s: State, rows: seq<Installment>)
    requires Formed(s) && |rows| == |s.installments|
    requires forall i :: 0 <= i < |rows| ==>
        PlanFollows(s.installments[i], rows[i]) && InstallmentOk(s.wallets, s.txs, rows[i])
    ensures Grown(s, s.(installments := rows))
  {
    forall i | 0 <= i < |rows| ensures FindKey(s.txs, CreditFund(rows[i].purchase)).Some? {
      assert PlanFollows(s.installments[i], rows[i]);
    }
  }

  lemma {:induction false} FormedRow(s: State, id: TxId)
    requires Formed(s) && id < |s.txs|
    ensures RowOk(|s.wallets|, |s.installments|, s.txs, id)
  {
  }

  lemma {:induction false} FormedPlan(s: State, i: nat)
    requires Formed(s) && i < |s.installments|
    ensures InstallmentOk(s.wallets, s.txs, s.installments[i])
        && FindKey(s.txs, CreditFund(s.installments[i].purchase)).Some?
  {
  }

  lemma {:induction false} FormedTables(s: State)
    requires Formed(s)
    ensures BackedOk(s.wallets) && RowsOk(|s.wallets|, |s.installments|, s.txs)
    ensures InstallmentsOk(s.wallets, s.txs, s.installments) && PlansDrawn(s.txs, s.installments)
  {
  }

  /** The books hold only over tables that are formed. */
  lemma {:induction false} InvFormed(s: State)
    requires Inv(s)
    ensures Formed(s)
  {
    InvPlans(s);
  }

  // ---- Posting ----

  lemma {:induction false} PayCashPosts(s: State, tx: TxId, w: WalletId, amount: int, cash: AccountCode)
    requires w < |s.wallets| && PayCash(s, tx, w, amount, cash).Ok?
    ensures var s' := PayCash(s, tx, w, amount, cash).value;
            s' == s.(journal := s'.journal) && s.journal <= s'.journal
  {
    hide Accepts, Against;
  }

  lemma {:induction false} PayInPosts(s: State, tx: TxId, w: WalletId, amount: int)
    requires w < |s.wallets| && PayIn(s, tx, w, amount).Ok?
    ensures var s' := PayIn(s, tx, w, amount).value;
            s' == s.(journal := s'.journal) && s.journal <= s'.journal
  {
    hide Accepts, Against;
  }

  lemma {:induction false} PayWalletPosts(s: State, tx: TxId, from: WalletId, to: WalletId, amount: int)
    requires from < |s.wallets| && to < |s.wallets| && PayWallet(s, tx, from, to, amount).Ok?
    ensures var s' := PayWallet(s, tx, from, to, amount).value;
            s' == s.(journal := s'.journal) && s.journal <= s'.journal
  {
    hide Accepts, Against, WalletToWallet;
  }

  lemma {:induction false} ReceivableGrows(s: State, tx: TxId, w: WalletId, delta: int)
    requires Formed(s) && w < |s.wallets| && PostReceivable(s, tx, w, delta).Ok?
    ensures Grown(s, PostReceivable(s, tx, w, delta).value)
    ensures PostReceivable(s, tx, w, delta).value == s.(journal := PostReceivable(s, tx, w, delta).value.journal)
  {
    hide Formed, Follows, Accepts;
    PostsGrow(s, PostReceivable(s, tx, w, delta).value);
  }

  lemma {:induction false} PostGrows(s: State, tx: TxId, legs: seq<Leg>)
    requires Formed(s) && Post(s, tx, legs).Ok?
    ensures Grown(s, Post(s, tx, legs).value) && Post(s, tx, legs).value.txs == s.txs
  {
    hide Formed, Follows, Accepts;
    PostsGrow(s, Post(s, tx, legs).value);
  }

  // ---- Withdrawals, transfers, adjustments ----

  lemma {:induction false} WithdrawGrows(s: State, user: nat, w: WalletId, amount: int, cleared: bool, key: string)
    requires Formed(s) && WithdrawFrom(s, user, w, amount, cleared, key).Ok?
    ensures Grown(s, WithdrawFrom(s, user, w, amount, cleared, key).value)
  {
    hide Formed, Follows, PayCash, WithdrawFrom;
    WithdrawTables(s, user, w, amount, cleared, key);
    var t := Row(Withdraw, Completed, Some(w), None, amount, Client(key)).(cleared := cleared);
    InsertGrows(s, t);
    var s1 := Insert(s, t).value;
    PayCashPosts(s1, |s.txs|, w, amount, CashAccount(cleared));
    PostsGrow(s1, PayCash(s1, |s.txs|, w, amount, CashAccount(cleared)).value);
    GrownThrough(s, s1, PayCash(s1, |s.txs|, w, amount, CashAccount(cleared)).value);
  }

  lemma {:induction false} TransferGrows(s: State, user: nat, from: WalletId, to: WalletId, amount: int, key: string)
    requires Formed(s) && TransferTo(s, user, from, to, amount, key).Ok?
    ensures Grown(s, TransferTo(s, user, from, to, amount, key).value)
  {
    hide Formed, Follows, PayWallet, TransferTo;
    TransferTables(s, user, from, to, amount, key);
    var t := Row(Transfer, Completed, Some(from), Some(to), amount, Client(key));
    InsertGrows(s, t);
    var s1 := Insert(s, t).value;
    PayWalletPosts(s1, |s.txs|, from, to, amount);
    PostsGrow(s1, PayWallet(s1, |s.txs|, from, to, amount).value);
    GrownThrough(s, s1, PayWallet(s1, |s.txs|, from, to, amount).value);
  }

  lemma {:induction false} AdjustGrows(s: State, w: WalletId, amount: int, key: string)
    requires Formed(s) && Adjust(s, w, amount, key).Ok?
    ensures Grown(s, Adjust(s, w, amount, key).value)
  {
    hide Formed, Follows, Accepts, Against, Balance;
    var t := Row(Adjustment, Completed, if amount < 0 then Some(w) else None,
                 if amount >= 0 then Some(w) else None, Abs(amount), Client(key));
    InsertGrows(s, t);
    var s1 := Insert(s, t).value;
    PostGrows(s1, |s.txs|, Against(Own(s1, w), amount, LedgerAdjustments));
    GrownThrough(s, s1, Adjust(s, w, amount, key).value);
  }

  // ---- Requests that open or amend a row ----

  lemma {:induction false} OpenDepositGrows(s: State, user: nat, w: WalletId, amount: int, expires: int, key: string)
    requires Formed(s) && OpenDeposit(s, user, w, amount, expires, key).Ok?
    ensures Grown(s, OpenDeposit(s, user, w, amount, expires, key).value)
  {
    hide Formed, Follows;
    InsertGrows(s, Row(Deposit, Awaiting, None, Some(w), amount, Client(key)).(expires := Some(expires)));
  }

  lemma {:induction false} OpenPurchaseGrows(s: State, user: nat, from: WalletId, to: WalletId, amount: int,
      expires: int, key: string)
    requires Formed(s) && OpenPurchase(s, user, from, to, amount, expires, key).Ok?
    ensures Grown(s, OpenPurchase(s, user, from, to, amount, expires, key).value)
  {
    hide Formed, Follows;
    InsertGrows(s, Row(Purchase, Awaiting, Some(from), Some(to), amount, Client(key)).(expires := Some(expires)));
  }

  lemma {:induction false} OpenChargeGrows(s: State, to: WalletId, amount: int, splits: Option<seq<SplitDto>>,
      expires: int, key: string)
    requires Formed(s) && OpenCharge(s, to, amount, splits, expires, key).Ok?
    ensures Grown(s, OpenCharge(s, to, amount, splits, expires, key).value)
  {
    hide Follows, ValidChargeOverrides, StoredRows, RowsOk, InstallmentsOk, PlansDrawn, BackedOk;
    var t := Row(Purchase, Awaiting, None, Some(to), amount, Client(key)).(expires := Some(expires));
    InsertGrows(s, t);
    var s1 := Insert(s, t).value;
    var s' := OpenCharge(s, to, amount, splits, expires, key).value;
    assert s' == s1.(overrides := s'.overrides);
    OverridesGrow(s1, s');
    GrownThrough(s, s1, s');
  }

  lemma {:induction false} OverridesGrow(s: State, s': State)
    requires Formed(s) && s' == s.(overrides := s'.overrides)
    ensures Grown(s, s')
  {
  }

  lemma {:induction false} DefaultsGrow(s: State, w: WalletId, percents: seq<int>)
    requires Formed(s) && ReplaceDefaults(s, w, percents).Ok?
    ensures Grown(s, ReplaceDefaults(s, w, percents).value)
  {
  }

  lemma {:induction false} AttachGrows(s: State, id: TxId, user: nat, w: WalletId)
    requires Formed(s) && AttachWallet(s, id, user, w).Ok?
    ensures Grown(s, AttachWallet(s, id, user, w).value)
  {
    hide Formed, Follows;
    FormedRow(s, id);
    if s.txs[id].from.None? {
      ReplaceGrows(s, id, s.txs[id].(from := Some(w)));
    } else {
      GrownSame(s);
    }
  }

  lemma {:induction false} OpenRepaymentGrows(s: State, user: nat, i: nat, expires: int, key: string)
    requires Formed(s) && OpenRepayment(s, user, i, expires, key).Ok?
    ensures Grown(s, OpenRepayment(s, user, i, expires, key).value)
  {
    hide Formed, Follows;
    var wallet := s.wallets[s.installments[i].wallet];
    var charge := s.installments[i].amount + if wallet.blocked then wallet.typ.terms.unblockFee else 0;
    InsertGrows(s, Row(Deposit, Awaiting, None, wallet.repository, charge, Client(key))
                     .(expires := Some(expires), installment := Some(i)));
  }

  lemma {:induction false} OpenCollectionGrows(s: State, w: WalletId, quit: bool, expires: int, key: string)
    requires Formed(s) && OpenCollection(s, w, quit, expires, key).Ok?
    ensures Grown(s, OpenCollection(s, w, quit, expires, key).value)
  {
    hide Formed, Follows;
    var wallet := s.wallets[w];
    var owed := Sum(OutstandingRows(s.installments, w), AmountOf()) + if quit then 0 else wallet.typ.terms.unblockFee;
    InsertGrows(s, Row(Deposit, Awaiting, None, wallet.repository, owed, Client(key))
                     .(expires := Some(expires), settles := Some(w)));
  }

  lemma {:induction false} OpenTopUpGrows(s: State, p: TxId, shortfall: int, expires: int)
    requires Formed(s) && OpenTopUp(s, p, shortfall, expires).Ok?
    ensures Grown(s, OpenTopUp(s, p, shortfall, expires).value)
  {
    hide Formed, Follows;
    if exists i :: 0 <= i < |s.txs| && s.txs[i].completes == Some(p) && s.txs[i].status == Awaiting {
      GrownSame(s);
    } else {
      FormedRow(s, p);
      var purchase := s.txs[p].(expires := Some(expires));
      ReplaceGrows(s, p, purchase);
      var s1 := s.(txs := s.txs[p := purchase]);
      var t := Row(Deposit, Awaiting, None, None, shortfall, SupportTopUp(p, Attempts(s.txs, p)))
                 .(expires := Some(expires), completes := Some(p));
      InsertGrows(s1, t);
      GrownThrough(s, s1, Insert(s1, t).value);
    }
  }

  /** No plan hangs on a row that was never completed. */
  lemma {:induction false} UnplannedYet(s: State, p: TxId)
    requires Formed(s) && p < |s.txs| && s.txs[p].status == Awaiting
    ensures !HasPlan(s.installments, p)
  {
    forall i | 0 <= i < |s.installments| ensures s.installments[i].purchase != p {
      assert InstallmentOk(s.wallets, s.txs, s.installments[i]);
    }
  }

  lemma {:induction false} ExpireGrows(s: State, id: TxId)
    requires Formed(s) && ExpirePending(s, id).Ok?
    ensures Grown(s, ExpirePending(s, id).value)
  {
    hide Formed, Follows;
    UnplannedYet(s, id);
    FormedRow(s, id);
    ReplaceGrows(s, id, s.txs[id].(status := Reversed));
  }

  // ---- Completing a purchase ----

  /** A draw for a purchase that is completed already. */
  lemma {:induction false} DrawGrows(s: State, s': State, p: TxId, from: WalletId, amount: int, today: Date)
    requires Formed(s) && IsDraw(s, s', p, from, amount, today)
    requires p < |s.txs| && IsPurchase(s.txs[p]) && s.txs[p].status == Completed && s.txs[p].from == Some(from)
    ensures Grown(s, s')
  {
    hide ReceivableLegs, RowOk, InstallmentOk, Schedule;
    var a, b := FundRow(s, p, from, amount), DrawRow(p, from, amount);
    DrawKeepsRows(s, s', a, b);
    DrawnLinks(s, s', p, from, amount, today);
    DrawnPlans(s, s', p, from, amount, today);
    assert s'.wallets[..|s.wallets|] == s'.wallets;
  }

  lemma {:induction false} DrawnLinks(s: State, s': State, p: TxId, from: WalletId, amount: int, today: Date)
    requires BackedOk(s.wallets) && IsDraw(s, s', p, from, amount, today)
    ensures BackedOk(s'.wallets) && SameShape(s.wallets, s'.wallets)
  {
    forall w | 0 <= w < |s'.wallets| ensures LinkOk(s'.wallets, w) {
      assert LinkOk(s.wallets, w);
    }
  }

  lemma {:induction false} DrawnPlans(s: State, s': State, p: TxId, from: WalletId, amount: int, today: Date)
    requires InstallmentsOk(s.wallets, s.txs, s.installments) && PlansDrawn(s.txs, s.installments)
    requires IsDraw(s, s', p, from, amount, today)
    requires p < |s.txs| && IsPurchase(s.txs[p]) && s.txs[p].status == Completed && s.txs[p].from == Some(from)
    ensures InstallmentsOk(s'.wallets, s'.txs, s'.installments) && PlansDrawn(s'.txs, s'.installments)
  {
    hide Schedule, ReceivableLegs;
    var terms, more := s.wallets[from].typ.terms, [FundRow(s, p, from, amount), DrawRow(p, from, amount)];
    if HasSchedule(amount, terms) {
      PlannedInstallments(s.wallets, s.txs, more, s.installments, p, from, amount, today);
    } else {
      NoScheduleNoRows(s, p, from, amount, today);
      MoreRowsOk(s.wallets, s.txs, s.installments, more);
    }
    forall i | 0 <= i < |s'.installments|
      ensures InstallmentOk(s'.wallets, s'.txs, s'.installments[i])
      ensures FindKey(s'.txs, CreditFund(s'.installments[i].purchase)).Some?
    {
      assert InstallmentOk(s.wallets, s'.txs, s'.installments[i]);
      DrawnRows(s.txs, p, more[0], more[1], s'.installments[i].purchase);
      if i < |s.installments| {
        assert s'.installments[i] == s.installments[i];
      }
    }
  }

  lemma {:induction false} NoScheduleNoRows(s: State, p: TxId, from: WalletId, amount: int, today: Date)
    requires from < |s.wallets| && OnCalendar(today) && !HasSchedule(amount, s.wallets[from].typ.terms)
    ensures DrawPlan(s, p, from, amount, today) == []
  {
  }

  lemma {:induction false} MoreRowsOk(ws: seq<Wallet>, txs: seq<Tx>, installments: seq<Installment>, more: seq<Tx>)
    requires InstallmentsOk(ws, txs, installments)
    ensures InstallmentsOk(ws, txs + more, installments)
  {
    forall i | 0 <= i < |installments| ensures InstallmentOk(ws, txs + more, installments[i]) {
      assert InstallmentOk(ws, txs, installments[i]);
    }
  }

  function RevivedBy(s: State, p: TxId): set<TxId>
    requires p < |s.txs|
  {
    if s.txs[p].status == Reversed then {p} else {}
  }

  lemma {:induction false} FundingGrows(s: State, s2: State, p: TxId, support: Option<Funding>, today: Date)
    requires Formed(s) && Ready(s, p, support) && IsFunding(s, s2, p, support, today)
    ensures p < |s2.txs| && GrownBut(s, SetStatus(s2, p, Completed), RevivedBy(s, p))
  {
    hide Formed, Follows, IsDraw;
    FormedRow(s, p);
    ReplaceGrows(s, p, s.txs[p].(status := Completed));
    var u := SetStatus(s, p, Completed);
    var s1 := Funded(s, p, support);
    if support.Some? {
      var row := SupportRow(p, s.txs[p].from.value, support.value);
      RowGrows(u, row);
      assert u.txs + [row] == SetStatus(s1, p, Completed).txs;
      GrownBoth(s, u, SetStatus(s1, p, Completed), RevivedBy(s, p), {});
      assert RevivedBy(s, p) + {} == RevivedBy(s, p);
    }
    var from, rest := s.txs[p].from.value, Remainder(s, p, support);
    if DrawsOnLine(s, from, rest) {
      DrawUnderStatus(s1, s2, p, from, rest, today, Completed);
      DrawGrows(SetStatus(s1, p, Completed), SetStatus(s2, p, Completed), p, from, rest, today);
      GrownBoth(s, SetStatus(s1, p, Completed), SetStatus(s2, p, Completed), RevivedBy(s, p), {});
      assert RevivedBy(s, p) + {} == RevivedBy(s, p);
    }
  }

  lemma {:induction false} SettleGrows(s: State, p: TxId, support: Option<Funding>, today: Date)
    requires Formed(s) && Ready(s, p, support) && OnCalendar(today) && Settle(s, p, support, today).Ok?
    ensures GrownBut(s, Settle(s, p, support, today).value, RevivedBy(s, p))
  {
    hide Formed, Follows, Settle, FundPurchase, IsFunding, PurchaseLegs;
    FormedTables(s);
    var s2 := SettleUnfolds(s, p, support, today);
    FundingTables(s, s2, p, support, today);
    FundingGrows(s, s2, p, support, today);
    var u := SetStatus(s2, p, Completed);
    PostsGrow(u, Settle(s, p, support, today).value);
    GrownBoth(s, u, Settle(s, p, support, today).value, RevivedBy(s, p), {});
    assert RevivedBy(s, p) + {} == RevivedBy(s, p);
  }

  // ---- Top-ups ----

  lemma {:induction false} SupportGrows(s: State, user: nat, currency: CurrencyId)
    requires Formed(s) && SupportWalletFor(s, user, currency).Ok?
    ensures var (s0, support) := SupportWalletFor(s, user, currency).value;
            Grown(s, s0) && s0 == s.(wallets := s0.wallets)
  {
    hide Formed, Follows, FindSupport;
    var (s0, support) := SupportWalletFor(s, user, currency).value;
    if s0.wallets == s.wallets {
      GrownSame(s);
      assert s0 == s;
    } else {
      WalletGrows(s, s0.wallets[|s.wallets|]);
    }
  }

  lemma {:induction false} LandTopUpGrows(s: State, t: TxId, user: nat, currency: CurrencyId)
    requires Formed(s) && t < |s.txs| && s.txs[t].completes.Some? && s.txs[t].status != Reversed
    requires LandTopUp(s, t, user, currency).Ok?
    ensures Grown(s, LandTopUp(s, t, user, currency).value.0)
  {
    hide Formed, Follows, SupportWalletFor, Against, Accepts;
    FormedRow(s, t);
    SupportGrows(s, user, currency);
    var (s0, support) := SupportWalletFor(s, user, currency).value;
    if s.txs[t].status != Completed {
      FormedRow(s0, t);
      var landed := s0.txs[t].(to := Some(support), status := Completed);
      ReplaceGrows(s0, t, landed);
      var s1 := s0.(txs := s0.txs[t := landed]);
      PostGrows(s1, t, Against(Own(s1, support), s.txs[t].amount, BankCash));
      GrownThrough(s, s0, s1);
      GrownThrough(s, s1, LandTopUp(s, t, user, currency).value.0);
    }
  }

  function RevivedByTopUp(s: State, t: TxId): set<TxId>
    requires t < |s.txs| && s.txs[t].completes.Some?
  {
    if s.txs[t].completes.value < |s.txs| then RevivedBy(s, s.txs[t].completes.value) else {}
  }

  lemma {:induction false} TopUpGrows(s: State, t: TxId, today: Date)
    requires Formed(s) && t < |s.txs| && s.txs[t].completes.Some? && s.txs[t].status != Reversed
    requires OnCalendar(today) && CompleteTopUp(s, t, today).Ok?
    ensures GrownBut(s, CompleteTopUp(s, t, today).value, RevivedByTopUp(s, t))
  {
    hide Formed, Follows, Settle, LandTopUp;
    var p := s.txs[t].completes.value;
    FormedRow(s, t);
    FormedRow(s, p);
    var user, currency := s.wallets[s.txs[p].from.value].user, s.wallets[s.txs[p].from.value].typ.currency;
    LandTopUpGrows(s, t, user, currency);
    LandedSupport(s, t, user, currency);
    if s.txs[p].status != Completed {
      var (s1, support) := LandTopUp(s, t, user, currency).value;
      SettleGrows(s1, p, Some(Funding(support, s.txs[t].amount)), today);
      GrownBoth(s, s1, CompleteTopUp(s, t, today).value, {}, RevivedBy(s, p));
      assert {} + RevivedBy(s, p) == RevivedBy(s, p);
    }
  }

  // ---- Repayments and write-offs ----

  lemma {:induction false} SettleOneGrows(s: State, i: nat, tx: TxId)
    requires Formed(s) && i < |s.installments| && SettleOne(s, i, tx).Ok?
    ensures Grown(s, SettleOne(s, i, tx).value)
  {
    hide Formed, Follows, PostReceivable, InstallmentOk;
    FormedPlan(s, i);
    var row := s.installments[i];
    PlanRowPaid(s.wallets, s.txs, row);
    var rows := s.installments[i := row.(status := Paid)];
    forall k | 0 <= k < |rows| ensures PlanFollows(s.installments[k], rows[k])
        && InstallmentOk(s.wallets, s.txs, rows[k]) {
      FormedPlan(s, k);
    }
    PlansGrow(s, rows);
    var s1 := s.(installments := rows);
    ReceivableGrows(s1, tx, row.wallet, -row.principal);
    var s2 := PostReceivable(s1, tx, row.wallet, -row.principal).value;
    VirtualGrows(s2, row.wallet, s2.wallets[row.wallet].virtualAmount + row.principal);
    var s3 := SetVirtual(s2, row.wallet, s2.wallets[row.wallet].virtualAmount + row.principal);
    InsertGrows(s3, Row(Virtual, Completed, None, Some(row.wallet), row.principal, InstallmentRestore(i)));
    GrownThrough(s, s1, s2);
    GrownThrough(s, s2, s3);
    GrownThrough(s, s3, SettleOne(s, i, tx).value);
  }

  lemma {:induction false} PlanRowPaid(ws: seq<Wallet>, txs: seq<Tx>, i: Installment)
    requires InstallmentOk(ws, txs, i)
    ensures InstallmentOk(ws, txs, i.(status := Paid)) && PlanFollows(i, i.(status := Paid)) && i.wallet < |ws|
  {
  }

  lemma {:induction false} UnblockGrows(s: State, w: WalletId)
    requires Formed(s)
    ensures Grown(s, Unblock(s, w))
  {
    hide Formed, Follows;
    if w < |s.wallets| {
      ShapeGrows(s, Unblock(s, w).wallets);
    } else {
      GrownSame(s);
    }
  }

  lemma {:induction false} MarkPaidGrows(s: State, i: nat, tx: TxId)
    requires Formed(s) && i < |s.installments| && MarkPaid(s, i, tx).Ok?
    ensures Grown(s, MarkPaid(s, i, tx).value)
  {
    hide Formed, Follows, SettleOne, Unblock;
    SettleOneGrows(s, i, tx);
    UnblockGrows(SettleOne(s, i, tx).value, s.installments[i].wallet);
    GrownThrough(s, SettleOne(s, i, tx).value, MarkPaid(s, i, tx).value);
  }

  lemma {:induction false} SettlingGrows(s: State, w: WalletId, n: nat, tx: TxId)
    requires Formed(s) && n <= |s.installments| && SettleOutstanding(s, w, n, tx).Ok?
    ensures Grown(s, SettleOutstanding(s, w, n, tx).value)
  {
    hide Formed, Follows, SettleOne;
    if n == 0 {
      GrownSame(s);
    } else {
      SettlingGrows(s, w, n - 1, tx);
      var s1 := SettleOutstanding(s, w, n - 1, tx).value;
      if n <= |s1.installments| && s1.installments[n - 1].wallet == w && Unpaid(s1.installments[n - 1]) {
        SettleOneGrows(s1, n - 1, tx);
        GrownThrough(s, s1, SettleOne(s1, n - 1, tx).value);
      }
    }
  }

  lemma {:induction false} MarkAllPaidGrows(s: State, w: WalletId, tx: TxId)
    requires Formed(s) && MarkAllPaid(s, w, tx).Ok?
    ensures Grown(s, MarkAllPaid(s, w, tx).value)
  {
    hide Formed, Follows, SettleOutstanding, Unblock;
    SettlingGrows(s, w, |s.installments|, tx);
    var s1 := SettleOutstanding(s, w, |s.installments|, tx).value;
    UnblockGrows(s1, w);
    GrownThrough(s, s1, Unblock(s1, w));
  }

  lemma {:induction false} RouteGrows(s: State, main: WalletId, parts: seq<Part>, transfer: bool, prefix: SplitPrefix)
    requires Formed(s) && main < |s.wallets| && Route(s, main, parts, transfer, prefix).Ok?
    ensures var r := Route(s, main, parts, transfer, prefix).value;
            Grown(s, r.state) && r.state == s.(txs := r.state.txs) && s.txs <= r.state.txs
  {
    hide Formed, Follows, FindKey;
    if |parts| == 0 {
      GrownSame(s);
    } else {
      var init, part := parts[..|parts| - 1], parts[|parts| - 1];
      RouteGrows(s, main, init, transfer, prefix);
      var r := Route(s, main, init, transfer, prefix).value;
      if OpenTarget(s.wallets, part) {
        var row := Row(if transfer then Transfer else Deposit, Completed, if transfer then Some(main) else None,
                       part.target, part.amount, SliceKey(prefix, part.slice));
        RoutedRowOk(r.state, row);
        InsertGrows(r.state, row);
        GrownThrough(s, r.state, Insert(r.state, row).value);
      }
    }
  }

  lemma {:induction false} LandRepaymentGrows(s: State, t: TxId)
    requires Formed(s) && Chargeable(s, t) && s.txs[t].status == Awaiting && LandRepayment(s, t, s.txs[t].to.value).Ok?
    ensures Grown(s, LandRepayment(s, t, s.txs[t].to.value).value)
    ensures LandRepayment(s, t, s.txs[t].to.value).value.installments == s.installments
  {
    hide Formed, Follows, LandRepayment, Route, CashInLegs, ChargeOf, Accepts, RowOk;
    var main := s.txs[t].to.value;
    var charge, r := LandUnfolds(s, t);
    RouteGrows(s, main, charge.parts, false, OfRepayment(t));
    var amount := charge.principal + r.unrouted;
    var legs :=
        CashInLegs(BankCash, s.wallets[main].typ.currency, s.txs[t].amount, [Movement(Own(s, main), amount)] + r.legs);
    PostGrows(r.state, t, legs);
    var s1 := Post(r.state, t, legs).value;
    FormedRow(s1, t);
    var done := s1.txs[t].(amount := amount, status := Completed);
    RepaidRowOk(s1, t, done);
    LandedFollows(s1.txs[t], done);
    ReplaceGrows(s1, t, done);
    GrownThrough(s, r.state, s1);
    GrownThrough(s, s1, s1.(txs := s1.txs[t := done]));
  }

  lemma {:induction false} LandedFollows(a: Tx, b: Tx)
    requires a.status == Awaiting && a.kind == Deposit && b == a.(amount := b.amount, status := Completed)
    ensures RowFollows(a, b)
  {
  }

  lemma {:induction false} ReceiveGrows(s: State, t: TxId)
    requires Formed(s) && t < |s.txs| && s.txs[t].kind == Deposit && s.txs[t].status == Awaiting
    requires s.txs[t].completes.None? && ReceiveMoney(s, t).Ok?
    ensures Grown(s, ReceiveMoney(s, t).value)
  {
    hide Formed, Follows, LandRepayment, MarkPaid, MarkAllPaid, PayIn;
    FormedRow(s, t);
    var w, s' := s.txs[t].to.value, ReceiveMoney(s, t).value;
    if IsRepayment(s.txs[t]) {
      LandRepaymentGrows(s, t);
      var s1 := LandRepayment(s, t, w).value;
      if s.txs[t].installment.Some? {
        MarkPaidGrows(s1, s.txs[t].installment.value, t);
      } else {
        MarkAllPaidGrows(s1, s.txs[t].settles.value, t);
      }
      GrownThrough(s, s1, s');
    } else {
      PayInPosts(s, t, w, s.txs[t].amount);
      var s1 := PayIn(s, t, w, s.txs[t].amount).value;
      PostsGrow(s, s1);
      ReplaceGrows(s1, t, s1.txs[t].(status := Completed));
      GrownThrough(s, s1, s');
    }
  }

  function RevivedByVerify(s: State, t: TxId, paid: bool): set<TxId> {
    if t < |s.txs| && s.txs[t].completes.Some?
        && (paid || s.txs[t].status == Completed) then RevivedByTopUp(s, t) else {}
  }

  lemma {:induction false} VerifyGrows(s: State, t: TxId, paid: bool, now: int, today: Date)
    requires Formed(s) && OnCalendar(today) && Verify(s, t, paid, now, today).Ok?
    ensures GrownBut(s, Verify(s, t, paid, now, today).value, RevivedByVerify(s, t, paid))
  {
    hide Formed, Follows, CompleteTopUp, ReceiveMoney, Settle;
    FormedRow(s, t);
    GrownSame(s);
    if s.txs[t].completes.Some? && (paid || s.txs[t].status == Completed) {
      TopUpGrows(s, t, today);
    } else if s.txs[t].status == Awaiting && paid {
      if s.txs[t].kind == Deposit {
        ReceiveGrows(s, t);
      } else {
        SettleGrows(s, t, None, today);
      }
    }
  }

  lemma {:induction false} BackedAreLinked(ws: seq<Wallet>)
    requires BackedOk(ws)
    ensures LinksOk(ws)
  {
    forall w | 0 <= w < |ws| ensures Linked(ws, w) {
      assert LinkOk(ws, w);
    }
  }

  lemma {:induction false} AbsorbGrows(s: State, w: WalletId, quit: bool, key: string, r: Routed, parts: seq<Part>,
      s2: State)
    requires Formed(s) && w < |s.wallets| && s.wallets[w].repository.Some?
        && s.wallets[w].repository.value < |s.wallets|
    requires var main := s.wallets[w].repository.value;
             var split := RepaymentSplit(OutstandingRows(s.installments, w));
             var total := split.fee + split.penalty + if quit then 0 else s.wallets[w].typ.terms.unblockFee;
             var row := Row(Adjustment, Completed, Some(main), None, total, Client(key));
             && Route(s, main, parts, true, if quit then OfQuit(key) else OfOverdue(key)) == Ok(r)
             && Insert(r.state, row).Ok?
             && PostAbsorbed(r.state.(txs := r.state.txs + [row]), |r.state.txs|, main, total - r.unrouted, r.legs)
                 == Ok(s2)
    ensures Grown(s, s2)
  {
    hide Formed, Follows, Route, PostAbsorbed, RepaymentSplit, OutstandingRows, RowOk;
    var main := s.wallets[w].repository.value;
    var split := RepaymentSplit(OutstandingRows(s.installments, w));
    var total := split.fee + split.penalty + if quit then 0 else s.wallets[w].typ.terms.unblockFee;
    RouteGrows(s, main, parts, true, if quit then OfQuit(key) else OfOverdue(key));
    var row := Row(Adjustment, Completed, Some(main), None, total, Client(key));
    AdjustmentRowOk(r.state, row);
    InsertGrows(r.state, row);
    var s1 := r.state.(txs := r.state.txs + [row]);
    AbsorbedGrows(s1, |r.state.txs|, main, total - r.unrouted, r.legs);
    GrownThrough(s, r.state, s1);
    GrownThrough(s, s1, s2);
  }

  lemma {:induction false} WriteOffGrows(s: State, w: WalletId, quit: bool, key: string)
    requires Formed(s) && WriteOff(s, w, quit, key).Ok?
    ensures Grown(s, WriteOff(s, w, quit, key).value)
  {
    hide Formed, Follows, WriteOff, Route, MarkAllPaid, Parts, RepaymentSplit, OutstandingRows, RowOk, PostAbsorbed,
      IsRouted;
    var r, parts, s2 := AbsorbTables(s, w, quit, key);
    AbsorbGrows(s, w, quit, key, r, parts, s2);
    MarkAllPaidGrows(s2, w, |r.state.txs|);
    GrownThrough(s, s2, MarkAllPaid(s2, w, |r.state.txs|).value);
  }

  lemma {:induction false} AbsorbedGrows(s: State, tx: TxId, r: WalletId, total: int, legs: seq<Movement>)
    requires Formed(s) && PostAbsorbed(s, tx, r, total, legs).Ok?
    ensures Grown(s, PostAbsorbed(s, tx, r, total, legs).value)
  {
    hide Formed, Follows, MultiLegs;
    if |legs| > 0 && r < |s.wallets| {
      PostGrows(s, tx, MultiLegs([Movement(Own(s, r), total)], legs));
    } else {
      GrownSame(s);
    }
  }

  // ---- Lines, refunds, payouts, daily sweeps ----

  lemma {:induction false} GrantGrows(s: State, user: nat, r: WalletId, person: nat, typ: WalletType, amount: int,
      key: string)
    requires Formed(s) && GrantCredit(s, user, r, person, typ, amount, key).Ok?
    ensures Grown(s, GrantCredit(s, user, r, person, typ, amount, key).value)
  {
    hide Formed, Follows, FindKey;
    var s1 := SetVirtual(s, r, s.wallets[r].virtualAmount - amount);
    VirtualGrows(s, r, s.wallets[r].virtualAmount - amount);
    FormedTables(s);
    assert LinkOk(s.wallets, r);
    var line := Wallet(typ, person, Some(r), amount, false, false, None);
    WalletGrows(s1, line);
    var s2 := s1.(wallets := s1.wallets + [line]);
    InsertGrows(s2, Row(Virtual, Completed, Some(r), Some(|s.wallets|), amount, Client(key)));
    GrownThrough(s, s1, s2);
    GrownThrough(s, s2, GrantCredit(s, user, r, person, typ, amount, key).value);
  }

  lemma {:induction false} ReclaimGrows(s: State, w: WalletId, key: string)
    requires Formed(s) && CloseAndReclaim(s, w, key).Ok?
    ensures Grown(s, CloseAndReclaim(s, w, key).value)
  {
    hide Formed, Follows, FindKey, OutstandingRows, Balance;
    FormedTables(s);
    assert LinkOk(s.wallets, w);
    var s' := CloseAndReclaim(s, w, key).value;
    if s.wallets[w].virtualAmount > 0 {
      InsertGrows(s,
          Row(Virtual, Completed, Some(w), s.wallets[w].repository, s.wallets[w].virtualAmount, Client(key)));
    } else {
      GrownSame(s);
    }
    var s1 := s.(txs := s'.txs);
    ShapeGrows(s1, s'.wallets);
    GrownThrough(s, s1, s');
  }

  lemma {:induction false} FlagsGrow(s: State, op: Op)
    requires Formed(s) && (op.OpClose? || op.OpReopen?) && Step(s, op).Ok?
    ensures Grown(s, Step(s, op).value)
  {
    hide Formed, Follows, Balance;
    ShapeGrows(s, Step(s, op).value.wallets);
  }

  /** What a refund needs to know about a completed purchase. */
  lemma {:induction false} CompletedCanBeRefunded(s: State, p: TxId)
    requires Formed(s) && p < |s.txs| && s.txs[p].kind == Purchase && s.txs[p].status == Completed
    ensures Refundable(s, p) && s.txs[p].amount > 0
  {
    hide Formed;
    FormedRow(s, p);
    forall i | 0 <= i < |s.installments| ensures PaidUnder(p)(s.installments[i]) >= 0 {
      FormedPlan(s, i);
    }
    SumNonNegative(s.installments, PaidUnder(p));
  }

  /** Rows first, then the plan canceled under the purchase that is reversed with it. */
  lemma {:induction false} RefundGrows(s: State, p: TxId, key: string)
    requires Formed(s) && p < |s.txs| && s.txs[p].kind == Purchase && s.txs[p].status == Completed
    requires RefundCompleted(s, p, key).Ok?
    ensures Grown(s, RefundCompleted(s, p, key).value)
  {
    hide Formed, Follows, RefundCompleted, UnpaidDraw, FundingRepository, CancelPlan, ReceivableLegs, MultiLegs,
      Accepts, HasPlan, RowOk, CanceledState;
    CompletedCanBeRefunded(s, p);
    RefundRows(s, p, key);
    var s', more := RefundCompleted(s, p, key).value, Returned(s, p) + [RefundRowOf(s, p, key)];
    RefundedRowsOk(s, p, key);
    RowsGrow(s, more);
    var u := s.(txs := s.txs + more);
    CancelGrows(u, p);
    var c := u.(txs := u.txs[p := u.txs[p].(status := Reversed)], installments := CancelPlan(u.installments, p));
    GrownThrough(s, u, c);
    RefundedTables(s, p, key);
    ShapeGrows(c, s'.wallets);
    var v := c.(wallets := s'.wallets);
    GrownThrough(s, c, v);
    PostsGrow(v, s');
    GrownThrough(s, v, s');
  }

  lemma {:induction false} RefundedRowsOk(s: State, p: TxId, key: string)
    requires Refundable(s, p) && s.txs[p].amount > 0 && FundingRepository(s, p, s.txs[p].from.value) < |s.wallets|
    ensures var txs := s.txs + (Returned(s, p) + [RefundRowOf(s, p, key)]);
            forall id :: |s.txs| <= id < |txs| ==> RowOk(|s.wallets|, |s.installments|, txs, id)
  {
    hide UnpaidDraw, FundingRepository, FindKey;
  }

  lemma {:induction false} CancelGrows(s: State, p: TxId)
    requires Formed(s) && p < |s.txs| && IsPurchase(s.txs[p]) && s.txs[p].status == Completed
    ensures Grown(s,
        s.(txs := s.txs[p := s.txs[p].(status := Reversed)], installments := CancelPlan(s.installments, p)))
  {
    var after := s.txs[p := s.txs[p].(status := Reversed)];
    CancellationKeepsRows(s.wallets, s.txs, s.installments, p);
    forall i | 0 <= i < |s.installments|
      ensures FindKey(after, CreditFund(CancelPlan(s.installments, p)[i].purchase)).Some?
    {
      FindKeyUpdate(s.txs, p, after[p], CreditFund(s.installments[i].purchase));
    }
    assert s.wallets[..|s.wallets|] == s.wallets;
  }

  lemma {:induction false} RefundedTables(s: State, p: TxId, key: string)
    requires Refundable(s, p) && RefundCompleted(s, p, key).Ok?
    ensures FundingRepository(s, p, s.txs[p].from.value) < |s.wallets|
    ensures var s' := RefundCompleted(s, p, key).value;
            var u := s.(txs := s.txs + (Returned(s, p) + [RefundRowOf(s, p, key)]));
            && s' == u.(txs := u.txs[p := u.txs[p].(status := Reversed)], installments := CancelPlan(u.installments, p),
                        wallets := s'.wallets, journal := s'.journal)
            && SameShape(s.wallets, s'.wallets) && s.journal <= s'.journal
  {
    hide RefundCompleted, Unwound, UnpaidDraw, FundingRepository, CancelPlan, ReceivableLegs, MultiLegs, Accepts,
      HasPlan, FindKey;
    var s3 := RefundUnfolds(s, p, key);
    UnwindTables(s, p);
    RefundRows(s, p, key);
    var more := Returned(s, p) + [RefundRowOf(s, p, key)];
    assert (s.txs + more)[p := s.txs[p].(status := Reversed)]
        == s.txs[p := s.txs[p].(status := Reversed)] + Returned(s, p) + [RefundRowOf(s, p, key)];
  }

  lemma {:induction false} RefundOpGrows(s: State, user: nat, p: TxId, key: string)
    requires Formed(s) && Refund(s, user, p, key).Ok?
    ensures Grown(s, Refund(s, user, p, key).value)
  {
    hide Formed, Follows, RefundCompleted;
    FormedRow(s, p);
    if s.txs[p].status == Awaiting {
      UnplannedYet(s, p);
      ReplaceGrows(s, p, s.txs[p].(status := Reversed));
    } else {
      RefundGrows(s, p, key);
    }
  }

  lemma {:induction false} FeeGrows(s: State, payer: Payer, fee: int, key: Key, purchase: Option<TxId>)
    requires Formed(s) && PayerOk(s, payer) && payer.feeRepository.Some? && PayOutFee(s, payer, fee, key, purchase).Ok?
    ensures Grown(s, PayOutFee(s, payer, fee, key, purchase).value)
  {
    hide Formed, Follows, RowOk, WalletToWallet;
    var w, target := payer.wallet, payer.feeRepository.value;
    var row := Row(Transfer, Completed, Some(w), Some(target), fee, PayoutFee(key)).(related := purchase);
    PayoutRowOk(s, row);
    InsertGrows(s, row);
    var s1 := Insert(s, row).value;
    PostGrows(s1, |s.txs|, WalletToWallet(Own(s, w), Own(s, target), fee));
    GrownThrough(s, s1, PayOutFee(s, payer, fee, key, purchase).value);
  }

  lemma {:induction false} NetGrows(s: State, payer: Payer, net: int, key: Key, purchase: Option<TxId>)
    requires Formed(s) && PayerOk(s, payer) && !key.CreditFund? && PayNet(s, payer, net, key, purchase).Ok?
    ensures Grown(s, PayNet(s, payer, net, key, purchase).value)
  {
    hide Formed, Follows, RowOk, Against;
    var w := payer.wallet;
    var cleared := payer.rail.None? || |s.txs| !in payer.failed;
    var row := Row(Withdraw, Completed, Some(w), None, net, key).(related := purchase, cleared := cleared);
    PayoutRowOk(s, row);
    InsertGrows(s, row);
    var s1 := Insert(s, row).value;
    PostGrows(s1, |s.txs|, Against(Own(s, w), -net, CashAccount(cleared)));
    GrownThrough(s, s1, PayNet(s, payer, net, key, purchase).value);
  }

  lemma {:induction false} PayOutGrows(s: State, payer: Payer, amount: int, key: Key, purchase: Option<TxId>)
    requires Formed(s) && PayerOk(s, payer) && !key.CreditFund? && PayOut(s, payer, amount, key, purchase).Ok?
    ensures Grown(s, PayOut(s, payer, amount, key, purchase).value)
  {
    hide Formed, Follows, PayOutFee, PayNet, WithdrawalFee;
    var fee := FeeOfPayout(payer, amount);
    var s1 := if fee > 0 then PayOutFee(s, payer, fee, key, purchase).value else s;
    if fee > 0 {
      FeeGrows(s, payer, fee, key, purchase);
    } else {
      GrownSame(s);
    }
    if amount > fee {
      NetGrows(s1, payer, amount - fee, key, purchase);
      GrownThrough(s, s1, PayOut(s, payer, amount, key, purchase).value);
    }
  }

  lemma {:induction false} PaySlicesGrow(s: State, payer: Payer, p: TxId, slices: seq<int>)
    requires Formed(s) && PayerOk(s, payer) && PaySlices(s, payer, p, slices).Ok?
    ensures Grown(s, PaySlices(s, payer, p, slices).value)
  {
    hide Formed, Follows, PayOut;
    if |slices| == 0 {
      GrownSame(s);
    } else {
      var n := |slices| - 1;
      PaySlicesGrow(s, payer, p, slices[..n]);
      var s1 := PaySlices(s, payer, p, slices[..n]).value;
      PayOutGrows(s1, payer, slices[n], SweepSlice(payer.wallet, p, n, payer.minute), Some(p));
      GrownThrough(s, s1, PaySlices(s, payer, p, slices).value);
    }
  }

  lemma {:induction false} MarkGrows(s: State, p: TxId)
    requires Formed(s) && p < |s.txs| && s.txs[p].kind == Purchase && s.txs[p].status == Completed
    ensures Grown(s, Mark(s, p))
  {
    hide Formed, Follows;
    FormedRow(s, p);
    ReplaceGrows(s, p, s.txs[p].(settled := true));
  }

  lemma {:induction false} SweepingGrows(s: State, payer: Payer, n: nat, balance: int)
    requires Formed(s) && PayerOk(s, payer) && n <= |s.txs| && SweepPurchases(s, payer, n, balance).Ok?
    ensures Grown(s, SweepPurchases(s, payer, n, balance).value.state)
    ensures forall q :: n <= q < |s.txs| ==> SweepPurchases(s, payer, n, balance).value.state.txs[q] == s.txs[q]
  {
    hide Formed, Follows, PaySlices, SlicesOf;
    if n == 0 {
      GrownSame(s);
    } else {
      var p := n - 1;
      SweepingGrows(s, payer, p, balance);
      var done := SweepPurchases(s, payer, p, balance).value;
      if Unsettled(s.txs[p], payer.wallet) && Sum(SlicesOf(s, p, payer.wallet), Identity()) <= done.remaining {
        PaySlicesGrow(done.state, payer, p, SlicesOf(s, p, payer.wallet));
        var s1 := PaySlices(done.state, payer, p, SlicesOf(s, p, payer.wallet)).value;
        MarkGrows(s1, p);
        GrownThrough(s, done.state, s1);
        GrownThrough(s, s1, Mark(s1, p));
      }
    }
  }

  lemma {:induction false} SweepGrows(s: State, w: WalletId, minute: nat, failed: set<TxId>)
    requires Formed(s) && SweepWallet(s, w, minute, failed).Ok?
    ensures Grown(s, SweepWallet(s, w, minute, failed).value)
  {
    hide Formed, Follows, SweepPurchases, PayOut, SplitMode, Balance;
    if Balance(s.journal, w) <= 0 {
      GrownSame(s);
    } else {
      var payer := PayerFor(s, w, minute, failed).value;
      if !SplitMode(s, w) {
        PayOutGrows(s, payer, Balance(s.journal, w), Sweep(w, minute), None);
      } else {
        SweepingGrows(s, payer, |s.txs|, Balance(s.journal, w));
      }
    }
  }

  lemma {:induction false} AccruedRowOk(ws: seq<Wallet>, txs: seq<Tx>, i: Installment, today: int)
    requires InstallmentOk(ws, txs, i)
    ensures i.wallet < |ws|
    ensures var k := Accrue(i, ws[i.wallet].typ.terms.penaltyMilli, today);
            InstallmentOk(ws, txs, k) && PlanFollows(i, k)
  {
    AccrueKeepsAccrued(i, ws[i.wallet].typ.terms.penaltyMilli, today);
  }

  lemma {:induction false} PenaltiesGrow(s: State, today: int)
    requires Formed(s)
    ensures Grown(s, ApplyPenalties(s, today))
  {
    hide Formed, Follows, TooLate, InstallmentOk, PlanFollows, Accrue;
    var s' := ApplyPenalties(s, today);
    forall i | 0 <= i < |s.installments|
      ensures PlanFollows(s.installments[i], s'.installments[i]) && InstallmentOk(s.wallets, s.txs, s'.installments[i])
    {
      FormedPlan(s, i);
      AccruedRowOk(s.wallets, s.txs, s.installments[i], today);
    }
    PlansGrow(s, s'.installments);
    var s1 := s.(installments := s'.installments);
    ShapeGrows(s1, s'.wallets);
    GrownThrough(s, s1, s');
  }

  lemma {:induction false} DueCheckGrows(s: State, today: int)
    requires Formed(s)
    ensures Grown(s, CheckDue(s, today))
  {
    hide Formed, Follows;
    var s' := CheckDue(s, today);
    forall i | 0 <= i < |s.installments|
      ensures PlanFollows(s.installments[i], s'.installments[i]) && InstallmentOk(s.wallets, s.txs, s'.installments[i])
    {
      FormedPlan(s, i);
    }
    PlansGrow(s, s'.installments);
  }

  // ---- Every request, every run ----

  /** The purchases a request takes out of REVERSED: only a top-up's, since a verification turns away no
      purchase but a COMPLETED one. */
  function Revives(s: State, op: Op): set<TxId> {
    if op.OpVerify? then RevivedByVerify(s, op.tx, op.paid) else {}
  }

  lemma {:induction false} StepGrows(s: State, op: Op)
    requires Formed(s) && Step(s, op).Ok?
    ensures GrownBut(s, Step(s, op).value, Revives(s, op))
  {
    hide Formed, Follows, WithdrawFrom, TransferTo, Adjust, Verify, WriteOff, GrantCredit, CloseAndReclaim, Refund,
      SweepWallet, OpenTopUp, AttachWallet, ExpirePending, OpenDeposit, OpenPurchase, OpenCharge, OpenRepayment,
      OpenCollection, CloseWallet, ReopenWallet, ApplyPenalties, CheckDue;
    match op
    case OpWithdraw(user, w, amount, cleared, key) => WithdrawGrows(s, user, w, amount, cleared, key);
    case OpTransfer(user, from, to, amount, key) => TransferGrows(s, user, from, to, amount, key);
    case OpAdjust(w, amount, key) => AdjustGrows(s, w, amount, key);
    case OpDeposit(user, w, amount, expires, key) => OpenDepositGrows(s, user, w, amount, expires, key);
    case OpPurchase(user, from, to, amount, expires, key) => OpenPurchaseGrows(s, user, from, to, amount, expires, key);
    case OpCharge(to, amount, splits, expires, key) => OpenChargeGrows(s, to, amount, splits, expires, key);
    case OpAttach(tx, user, w) => AttachGrows(s, tx, user, w);
    case OpRepay(user, i, expires, key) => OpenRepaymentGrows(s, user, i, expires, key);
    case OpCollect(w, quit, expires, key) => OpenCollectionGrows(s, w, quit, expires, key);
    case OpTopUp(p, shortfall, expires) => OpenTopUpGrows(s, p, shortfall, expires);
    case OpExpire(tx) => ExpireGrows(s, tx);
    case OpVerify(tx, paid, now, today) => VerifyGrows(s, tx, paid, now, today);
    case OpWriteOff(w, quit, key) => WriteOffGrows(s, w, quit, key);
    case OpGrant(user, r, person, typ, amount, key) => GrantGrows(s, user, r, person, typ, amount, key);
    case OpReclaim(w, key) => ReclaimGrows(s, w, key);
    case OpRefund(user, tx, key) => RefundOpGrows(s, user, tx, key);
    case OpSweep(w, minute, failed) => SweepGrows(s, w, minute, failed);
    case OpPenalties(day) => PenaltiesGrow(s, day);
    case OpDueCheck(day) => DueCheckGrows(s, day);
    case OpDefaults(w, percents) => DefaultsGrow(s, w, percents);
    case _ => FlagsGrow(s, op);
  }

  /** A refunded or dropped purchase stays REVERSED under a request if and only if the request is not the
      verification of a top-up for one that is REVERSED by then. */
  lemma {:induction false} ReversedStaysExactly(s: State, op: Op)
    requires Formed(s) && Step(s, op).Ok?
    ensures |s.txs| <= |Step(s, op).value.txs|
    ensures (forall q :: 0 <= q < |s.txs| && s.txs[q].status == Reversed ==>
        Step(s, op).value.txs[q].status == Reversed)
       <==> Revives(s, op) == {}
    ensures forall q :: q in Revives(s, op) ==> q < |s.txs| && Step(s, op).value.txs[q].status == Completed
  {
    hide Formed, Step;
    StepGrows(s, op);
    forall q | q in Revives(s, op) ensures q < |s.txs| && Step(s, op).value.txs[q].status == Completed {
      RevivedIsCompleted(s, op, q);
    }
    forall q | 0 <= q < |s.txs| && s.txs[q].status == Reversed && Revives(s, op) == {}
      ensures Step(s, op).value.txs[q].status == Reversed
    {
      assert StaysReversed(s.txs[q], Step(s, op).value.txs[q], q, Revives(s, op));
    }
    if Revives(s, op) != {} {
      var q :| q in Revives(s, op);
      assert s.txs[q].status == Reversed;
    }
  }

  lemma {:induction false} RevivedIsCompleted(s: State, op: Op, q: TxId)
    requires Formed(s) && Step(s, op).Ok? && q in Revives(s, op)
    ensures q < |s.txs| && s.txs[q].status == Reversed
    ensures q < |Step(s, op).value.txs| && Step(s, op).value.txs[q].status == Completed
  {
    hide Formed, LandTopUp, FundPurchase, Accepts, MultiLegs, Balance;
    FormedRow(s, op.tx);
  }

  function RunRevives(s: State, ops: seq<Op>): set<TxId> {
    if |ops| == 0 then {} else RunRevives(s, ops[..|ops| - 1]) + Revives(Run(s, ops[..|ops| - 1]), ops[|ops| - 1])
  }

  /** Whatever is requested, from tables that are formed: they stay formed, and every row of every table is
      still there, changed at most in the ways its kind allows. */
  lemma {:induction false} RunGrows(s: State, ops: seq<Op>)
    requires Formed(s)
    ensures GrownBut(s, Run(s, ops), RunRevives(s, ops))
  {
    hide Formed, Follows, Step, Revives;
    GrownSame(s);
    if |ops| > 0 {
      var init, op := ops[..|ops| - 1], ops[|ops| - 1];
      RunGrows(s, init);
      if Step(Run(s, init), op).Ok? {
        StepGrows(Run(s, init), op);
        GrownBoth(s, Run(s, init), Run(s, ops), RunRevives(s, init), Revives(Run(s, init), op));
      } else {
        GrownMore(s, Run(s, init), RunRevives(s, init), RunRevives(s, ops));
      }
    }
  }

  lemma {:induction false} GrownMore(s: State, s': State, fewer: set<TxId>, more: set<TxId>)
    requires GrownBut(s, s', fewer) && fewer <= more
    ensures GrownBut(s, s', more)
  {
    hide Formed, RowFollows, PlanFollows;
    forall t | 0 <= t < |s.txs| ensures StaysReversed(s.txs[t], s'.txs[t], t, more) {
      assert StaysReversed(s.txs[t], s'.txs[t], t, fewer);
    }
  }
}
