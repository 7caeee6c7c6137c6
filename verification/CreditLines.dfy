/** The requests that move a credit line: draw, settle an installment, cancel a plan, grant, reclaim.
    Each changes ceiling, receivable, plan and rows together; separately they would break the books. */
module CreditLines {
  import opened Common
  import opened Sums
  import opened Ledger
  import opened Installments
  import opened Settlement
  import opened Bank
  import opened BankInvariant

  lemma {:induction false} ReceivablePosted(j: Journal, tx: TxId, h: Holder, delta: int)
    requires delta != 0
    ensures var k := j + [Entry(tx, ReceivableLegs(h, delta))];
            && (forall w: WalletId :: Balance(k, w) == Balance(j, w))
            && (forall w: WalletId :: Receivable(k, w) == Receivable(j, w) + if w == h.id then delta else 0)
            && (Balanced(j) ==> Balanced(k))
  {
    var e := Entry(tx, ReceivableLegs(h, delta));
    ReceivableEffect(h, delta);
    forall w: WalletId
      ensures Balance(j + [e], w) == Balance(j, w)
      ensures Receivable(j + [e], w) == Receivable(j, w) + if w == h.id then delta else 0
    {
      JournalSnoc(j, e, BalanceIn(w));
      JournalSnoc(j, e, OwedIn(w));
    }
    if Balanced(j) {
      AcceptedKeepsBalanced(j, e);
    }
  }

  lemma {:induction false} ReceivableKeepsMoney(ws: seq<Wallet>, j: Journal, tx: TxId, w: WalletId, delta: int)
    requires MoneyOk(ws, j) && w < |ws| && delta != 0
    ensures MoneyOk(ws, j + [Entry(tx, ReceivableLegs(HoldersOf(ws)[w], delta))])
  {
    ReceivablePosted(j, tx, HoldersOf(ws)[w], delta);
    forall k | 0 <= k < 2 ensures Filed(HoldersOf(ws), ReceivableLegs(HoldersOf(ws)[w], delta)[k]) {
    }
  }

  // ---- Drawing ----

  lemma {:induction false} PlanRowsWeigh(w: WalletId, p: TxId, schedule: seq<ScheduledInstallment>)
    ensures forall q: TxId :: Sum(PlanRows(w, p, schedule), PrincipalUnder(q))
                           == if q == p then Sum(schedule, PrincipalOfRow()) else 0
    ensures forall v: WalletId :: Sum(PlanRows(w, p, schedule), UnpaidOn(v))
                               == if v == w then Sum(schedule, PrincipalOfRow()) else 0
  {
    var rows := PlanRows(w, p, schedule);
    SumSame(schedule, rows, PrincipalOfRow(), PrincipalUnder(p));
    SumSame(schedule, rows, PrincipalOfRow(), UnpaidOn(w));
    forall q: TxId | q != p ensures Sum(rows, PrincipalUnder(q)) == 0 {
      SumZero(rows, PrincipalUnder(q));
    }
    forall v: WalletId | v != w ensures Sum(rows, UnpaidOn(v)) == 0 {
      SumZero(rows, UnpaidOn(v));
    }
  }

  function FundRow(s: State, p: TxId, from: WalletId, amount: int): Tx
    requires from < |s.wallets|
  {
    Row(Transfer, Completed, s.wallets[from].repository, Some(from), amount, CreditFund(p))
  }

  function DrawRow(p: TxId, from: WalletId, amount: int): Tx {
    Row(Virtual, Completed, Some(from), None, amount, CreditDraw(p))
  }

  function DrawPlan(s: State, p: TxId, from: WalletId, amount: int, today: Date): seq<Installment>
    requires from < |s.wallets| && OnCalendar(today)
  {
    PlanRows(from, p, Schedule(amount, s.wallets[from].typ.terms, today))
  }

  /** The tables before and after a draw. */
  ghost predicate IsDraw(s: State, s': State, p: TxId, from: WalletId, amount: int, today: Date) {
    && OnCalendar(today) && amount > 0 && from < |s.wallets| && s.wallets[from].repository.Some?
    && s.wallets[from].repository.value < |s.wallets| && amount <= s.wallets[from].virtualAmount
    && Balance(s.journal, s.wallets[from].repository.value) >= amount
    && !HasPlan(s.installments, p) && FindKey(s.txs, CreditFund(p)).None?
    && s' == s.(
      wallets := s.wallets[from := s.wallets[from].(virtualAmount := s.wallets[from].virtualAmount - amount)],
      journal := s.journal + [Entry(p, ReceivableLegs(Own(s, from), amount))],
      txs := s.txs + [FundRow(s, p, from, amount), DrawRow(p, from, amount)],
      installments := s.installments + DrawPlan(s, p, from, amount, today))
  }

  lemma {:induction false} DrawTables(s: State, p: TxId, from: WalletId, amount: int, today: Date)
    requires from < |s.wallets| && s.wallets[from].repository.Some? && OnCalendar(today)
    requires Draw(s, p, from, amount, today).Ok? && amount > 0
    requires !HasPlan(s.installments, p)
    ensures IsDraw(s, Draw(s, p, from, amount, today).value, p, from, amount, today)
  {
  }

  lemma {:induction false} DrawnRows(txs: seq<Tx>, p: TxId, a: Tx, b: Tx, q: TxId)
    requires a.key == CreditFund(p) && !b.key.CreditFund?
    requires FindKey(txs, CreditFund(p)).None?
    ensures Drawn(txs + [a, b], q) == if q == p then a.amount else Drawn(txs, q)
    ensures FindKey(txs, CreditFund(q)).Some? ==> FindKey(txs + [a, b], CreditFund(q)).Some?
    ensures FindKey(txs + [a, b], CreditFund(p)).Some?
  {
    assert txs + [a, b] == (txs + [a]) + [b];
    FindKeySnoc(txs, a, CreditFund(q));
    FindKeySnoc(txs + [a], b, CreditFund(q));
    FindKeySnoc(txs, a, CreditFund(p));
    FindKeySnoc(txs + [a], b, CreditFund(p));
  }

  lemma {:induction false} KeptKey(txs: seq<Tx>, a: Tx, b: Tx, key: Key)
    ensures FindKey(txs, key).Some? ==> FindKey(txs + [a, b], key).Some?
  {
    assert txs + [a, b] == (txs + [a]) + [b];
    FindKeySnoc(txs, a, key);
    FindKeySnoc(txs + [a], b, key);
  }

  lemma {:induction false} UngrantedRows(txs: seq<Tx>, a: Tx, b: Tx, w: WalletId)
    requires GrantedTo(w)(a) == 0 && GrantedTo(w)(b) == 0
    ensures Granted(txs + [a, b], w) == Granted(txs, w)
  {
    assert txs + [a, b] == (txs + [a]) + [b];
    SumSnoc(txs, a, GrantedTo(w));
    SumSnoc(txs + [a], b, GrantedTo(w));
  }

  lemma {:induction false} PlannedRow(w: WalletId, p: TxId, amount: int, terms: Terms, today: Date, k: nat)
    requires OnCalendar(today) && HasSchedule(amount, terms) && k < terms.installmentCount.value
    ensures var i := PlanRows(w, p, Schedule(amount, terms, today))[k];
            && i.wallet == w && i.purchase == p && i.status == Pending && i.principal >= 0 && i.fee >= 0
            && Accrued(i, terms.penaltyMilli)
  {
    var row := Schedule(amount, terms, today)[k];
    assert row == ScheduleRow(amount, terms, today, k + 1);
    FloorBounds(row.principal, terms.feeMilli);
  }

  lemma {:induction false} PlannedInstallments(ws: seq<Wallet>, txs: seq<Tx>, more: seq<Tx>,
      installments: seq<Installment>,
                            p: TxId, from: WalletId, amount: int, today: Date)
    requires InstallmentsOk(ws, txs, installments) && OnCalendar(today)
    requires p < |txs| && IsPurchase(txs[p]) && txs[p].status == Completed && txs[p].from == Some(from)
    requires from < |ws| && ws[from].repository.Some? && HasSchedule(amount, ws[from].typ.terms)
    ensures InstallmentsOk(ws, txs + more,
        installments + PlanRows(from, p, Schedule(amount, ws[from].typ.terms, today)))
  {
    var rows := PlanRows(from, p, Schedule(amount, ws[from].typ.terms, today));
    forall i | 0 <= i < |installments + rows| ensures InstallmentOk(ws, txs + more, (installments + rows)[i]) {
      if i < |installments| {
        assert InstallmentOk(ws, txs, installments[i]);
      } else {
        assert (installments + rows)[i] == rows[i - |installments|];
        PlannedRow(from, p, amount, ws[from].typ.terms, today, i - |installments|);
      }
    }
  }

  lemma {:induction false} PlannedSums(wallets: nat, ws: seq<Wallet>, txs: seq<Tx>, installments: seq<Installment>,
      a: Tx, b: Tx,
                    rows: seq<Installment>, p: TxId, amount: int)
    requires RowsOk(wallets, |installments|, txs) && InstallmentsOk(ws, txs, installments)
    requires PlansOk(txs, installments) && PaidOk(txs, installments)
    requires p < |txs| && !HasPlan(installments, p) && FindKey(txs, CreditFund(p)).None?
    requires a.key == CreditFund(p) && a.amount == amount && !b.key.CreditFund?
    requires forall i :: 0 <= i < |rows| ==> rows[i].purchase == p && rows[i].status == Pending
    requires forall q: TxId :: Sum(rows, PrincipalUnder(q)) == if q == p then amount else 0
    ensures PlansOk(txs + [a, b], installments + rows) && PaidOk(txs + [a, b], installments + rows)
  {
    forall q | 0 <= q < |txs + [a, b]|
      ensures Sum(installments + rows, PrincipalUnder(q)) == Drawn(txs + [a, b], q)
      ensures HasPlan(installments + rows, q) ==> FindKey(txs + [a, b], CreditFund(q)).Some?
      ensures Sum(installments + rows, CanceledUnder(q)) > 0 ==> FindKey(txs + [a, b], CreditFundReverse(q)).Some?
    {
      SumConcat(installments, rows, PrincipalUnder(q));
      SumConcat(installments, rows, CanceledUnder(q));
      SumZero(rows, CanceledUnder(q));
      KeptKey(txs, a, b, CreditFundReverse(q));
      DrawnRows(txs, p, a, b, q);
      if q >= |txs| {
        NoPlanYet(ws, txs, installments, q);
        NoDrawYet(wallets, |installments|, txs, q);
      } else if q == p {
        assert Drawn(txs, p) == 0;
      } else if HasPlan(installments + rows, q) {
        var i :| 0 <= i < |installments + rows| && (installments + rows)[i].purchase == q;
        assert i < |installments| && installments[i].purchase == q;
      }
    }
    forall i | 0 <= i < |installments + rows| && (installments + rows)[i].status == Paid
      ensures FindKey(txs + [a, b], InstallmentRestore(i)).Some?
    {
      KeptKey(txs, a, b, InstallmentRestore(i));
    }
  }

  /** A draw moves ceiling to receivable, plans exactly what it drew, and takes nothing real. */
  lemma {:induction false} DrawKeeps(s: State, p: TxId, from: WalletId, amount: int, today: Date)
    requires Inv(s) && from < |s.wallets| && s.wallets[from].repository.Some? && OnCalendar(today) && amount > 0
    requires p < |s.txs| && IsPurchase(s.txs[p]) && s.txs[p].status == Completed && s.txs[p].from == Some(from)
    requires PlansInstallments(s.wallets[from].typ.terms) && Draw(s, p, from, amount, today).Ok?
    ensures IsDraw(s, Draw(s, p, from, amount, today).value, p, from, amount, today)
    ensures Kept(s, Draw(s, p, from, amount, today).value)
  {
    hide SameLines, Inv;
    InvPlans(s);
    NoPlanUndrawn(s, p, from, amount, today);
    DrawTables(s, p, from, amount, today);
    DrawnStateKeeps(s, Draw(s, p, from, amount, today).value, p, from, amount, today);
  }

  lemma {:induction false} DrawnStateKeeps(s: State, s': State, p: TxId, from: WalletId, amount: int, today: Date)
    requires Inv(s) && IsDraw(s, s', p, from, amount, today) && PlansInstallments(s.wallets[from].typ.terms)
    requires p < |s.txs| && IsPurchase(s.txs[p]) && s.txs[p].status == Completed && s.txs[p].from == Some(from)
    ensures Kept(s, s')
  {
    hide SameLines;
    DrawKeepsRows(s, s', FundRow(s, p, from, amount), DrawRow(p, from, amount));
    DrawKeepsPlans(s, s', p, from, amount, today);
    DrawKeepsBooks(s, s', p, from, amount, today);
    DrawKeepsLine(s, s', p, from, amount, today);
  }

  lemma {:induction false} DrawKeepsLine(s: State, s': State, p: TxId, from: WalletId, amount: int, today: Date)
    requires IsDraw(s, s', p, from, amount, today)
    ensures SameLines(s, s')
  {
    hide ReceivableLegs, Schedule;
    ReceivablePosted(s.journal, p, Own(s, from), amount);
  }

  lemma {:induction false} DrawKeepsPlans(s: State, s': State, p: TxId, from: WalletId, amount: int, today: Date)
    requires WalletsOk(s.wallets) && RowsOk(|s.wallets|, |s.installments|, s.txs)
    requires InstallmentsOk(s.wallets, s.txs, s.installments) && PlansOk(s.txs, s.installments)
    requires PaidOk(s.txs, s.installments) && MoneyOk(s.wallets, s.journal) && IsDraw(s, s', p, from, amount, today)
    requires PlansInstallments(s.wallets[from].typ.terms)
    requires p < |s.txs| && IsPurchase(s.txs[p]) && s.txs[p].status == Completed && s.txs[p].from == Some(from)
    ensures WalletsOk(s'.wallets) && InstallmentsOk(s'.wallets, s'.txs, s'.installments)
    ensures PlansOk(s'.txs, s'.installments) && PaidOk(s'.txs, s'.installments)
    ensures MoneyOk(s'.wallets, s'.journal)
  {
    var terms := s.wallets[from].typ.terms;
    assert LinkOk(s.wallets, from);
    var a, b := FundRow(s, p, from, amount), DrawRow(p, from, amount);
    PrincipalsAddUp(amount, terms, today);
    PlanRowsWeigh(from, p, Schedule(amount, terms, today));
    PlannedInstallments(s.wallets, s.txs, [a, b], s.installments, p, from, amount, today);
    PlannedSums(|s.wallets|, s.wallets, s.txs, s.installments, a, b, DrawPlan(s, p, from, amount, today), p, amount);
    ReceivableKeepsMoney(s.wallets, s.journal, p, from, amount);
    ShapeKeeps(s.wallets, s'.wallets, s'.txs, s'.installments, s'.journal);
  }

  lemma {:induction false} DrawKeepsBooks(s: State, s': State, p: TxId, from: WalletId, amount: int, today: Date)
    requires WalletsOk(s.wallets) && DebtsOk(s.journal, s.installments) && LinesOk(s.wallets, s.txs, s.journal)
    requires IsDraw(s, s', p, from, amount, today) && PlansInstallments(s.wallets[from].typ.terms)
    ensures DebtsOk(s'.journal, s'.installments) && LinesOk(s'.wallets, s'.txs, s'.journal)
  {
    var rows := DrawPlan(s, p, from, amount, today);
    PrincipalsAddUp(amount, s.wallets[from].typ.terms, today);
    PlanRowsWeigh(from, p, Schedule(amount, s.wallets[from].typ.terms, today));
    ReceivablePosted(s.journal, p, Own(s, from), amount);
    forall w: WalletId ensures Receivable(s'.journal, w) == Sum(s'.installments, UnpaidOn(w)) {
      SumConcat(s.installments, rows, UnpaidOn(w));
    }
    forall w: WalletId ensures Granted(s'.txs, w) == Granted(s.txs, w) {
      UngrantedRows(s.txs, FundRow(s, p, from, amount), DrawRow(p, from, amount), w);
    }
  }

  /** A draw leaves what is owed equal to what is planned if and only if the line's type plans installments. */
  lemma {:induction false} DrawKeepsDebtsExactly(s: State, p: TxId, from: WalletId, amount: int, today: Date)
    requires Inv(s) && from < |s.wallets| && s.wallets[from].repository.Some? && OnCalendar(today) && amount > 0
    requires p < |s.txs| && Draw(s, p, from, amount, today).Ok?
    ensures var s' := Draw(s, p, from, amount, today).value;
            DebtsOk(s'.journal, s'.installments) <==> PlansInstallments(s.wallets[from].typ.terms)
  {
    hide Draw;
    InvPlans(s);
    NoPlanUndrawn(s, p, from, amount, today);
    DrawTables(s, p, from, amount, today);
    var s' := Draw(s, p, from, amount, today).value;
    if PlansInstallments(s.wallets[from].typ.terms) {
      DrawKeepsBooks(s, s', p, from, amount, today);
    } else {
      UnplannedDebt(s, s', p, from, amount, today);
    }
  }

  /** Without a plan the debt grows and nothing is there to be paid. */
  lemma {:induction false} UnplannedDebt(s: State, s': State, p: TxId, from: WalletId, amount: int, today: Date)
    requires DebtsOk(s.journal, s.installments) && IsDraw(s, s', p, from, amount, today)
    requires !PlansInstallments(s.wallets[from].typ.terms)
    ensures s'.installments == s.installments
        && Receivable(s'.journal, from) == Sum(s'.installments, UnpaidOn(from)) + amount
  {
    ReceivablePosted(s.journal, p, Own(s, from), amount);
    assert DrawPlan(s, p, from, amount, today) == [];
    assert s.installments + [] == s.installments;
  }

  lemma {:induction false} NoPlanUndrawn(s: State, p: TxId, from: WalletId, amount: int, today: Date)
    requires PlansDrawn(s.txs, s.installments) && from < |s.wallets| && s.wallets[from].repository.Some?
        && OnCalendar(today)
    requires amount > 0 && p < |s.txs| && Draw(s, p, from, amount, today).Ok?
    ensures !HasPlan(s.installments, p)
  {
  }

  lemma {:induction false} DrawKeepsRows(s: State, s': State, a: Tx, b: Tx)
    requires RowsOk(|s.wallets|, |s.installments|, s.txs)
    requires |s'.wallets| == |s.wallets| && |s'.installments| >= |s.installments|
    requires s'.txs == s.txs + [a, b]
    requires a.key.CreditFund? && a.key.purchase < |s.txs| && a.from.Some? && a.kind == Transfer && b.kind == Virtual
    requires a.amount > 0 && b.amount > 0 && a.status == b.status == Completed && b.key.CreditDraw?
    requires !IsRepayment(a) && !IsRepayment(b) && a.completes.None? && b.completes.None?
    requires InTable(a.from, |s.wallets|) && InTable(a.to, |s.wallets|) && InTable(b.from, |s.wallets|)
        && InTable(b.to, |s.wallets|)
    ensures RowsOk(|s'.wallets|, |s'.installments|, s'.txs)
  {
    forall id | 0 <= id < |s'.txs| ensures RowOk(|s'.wallets|, |s'.installments|, s'.txs, id) {
      if id < |s.txs| {
        assert RowOk(|s.wallets|, |s.installments|, s.txs, id);
      }
    }
  }

  // ---- Settling one installment ----

  function RestoreRow(w: WalletId, principal: int, i: nat): Tx {
    Row(Virtual, Completed, None, Some(w), principal, InstallmentRestore(i))
  }

  /** The tables before and after one installment is marked PAID, whatever its status was. */
  ghost predicate IsSettlement(s: State, s': State, i: nat, tx: TxId) {
    && i < |s.installments| && s.installments[i].wallet < |s.wallets| && s.installments[i].principal > 0
    && FindKey(s.txs, InstallmentRestore(i)).None?
    && var row := s.installments[i];
       var w := row.wallet;
       s' == s.(
         wallets := s.wallets[w := s.wallets[w].(virtualAmount := s.wallets[w].virtualAmount + row.principal)],
         journal := s.journal + [Entry(tx, ReceivableLegs(Own(s, w), -row.principal))],
         txs := s.txs + [RestoreRow(w, row.principal, i)],
         installments := s.installments[i := row.(status := Paid)])
  }

  lemma {:induction false} SettlementTables(s: State, i: nat, tx: TxId)
    requires i < |s.installments| && s.installments[i].wallet < |s.wallets|
    requires SettleOne(s, i, tx).Ok?
    ensures IsSettlement(s, SettleOne(s, i, tx).value, i, tx)
  {
  }

  lemma {:induction false} SettledDebts(s: State, s': State, i: nat, tx: TxId)
    requires DebtsOk(s.journal, s.installments) && IsSettlement(s, s', i, tx)
    ensures forall w: WalletId :: Receivable(s'.journal, w)
              == Receivable(s.journal, w) - if w == s.installments[i].wallet then s.installments[i].principal else 0
    ensures forall w: WalletId :: Sum(s'.installments, UnpaidOn(w)) == Sum(s.installments, UnpaidOn(w))
              - if w == s.installments[i].wallet && Unpaid(s.installments[i]) then s.installments[i].principal else 0
  {
    var row := s.installments[i];
    ReceivablePosted(s.journal, tx, Own(s, row.wallet), -row.principal);
    forall w: WalletId
      ensures Sum(s'.installments, UnpaidOn(w)) == Sum(s.installments, UnpaidOn(w))
                - if w == row.wallet && Unpaid(row) then row.principal else 0
    {
      SumUpdate(s.installments, i, row.(status := Paid), UnpaidOn(w));
    }
  }

  lemma {:induction false} SettlementKeepsBooks(s: State, s': State, i: nat, tx: TxId)
    requires WalletsOk(s.wallets) && DebtsOk(s.journal, s.installments) && LinesOk(s.wallets, s.txs, s.journal)
    requires IsSettlement(s, s', i, tx) && Unpaid(s.installments[i])
    ensures DebtsOk(s'.journal, s'.installments) && LinesOk(s'.wallets, s'.txs, s'.journal)
  {
    var row := s.installments[i];
    SettledDebts(s, s', i, tx);
    forall w: WalletId ensures Granted(s'.txs, w) == Granted(s.txs, w) {
      SumSnoc(s.txs, RestoreRow(row.wallet, row.principal, i), GrantedTo(w));
    }
  }

  lemma {:induction false} SettlementKeepsPlans(wallets: nat, ws: seq<Wallet>, txs: seq<Tx>,
      installments: seq<Installment>, i: nat, t: Tx)
    requires RowsOk(wallets, |installments|, txs) && InstallmentsOk(ws, txs, installments)
    requires PlansOk(txs, installments) && PaidOk(txs, installments)
    requires i < |installments| && t.key == InstallmentRestore(i)
    ensures PlansOk(txs + [t], installments[i := installments[i].(status := Paid)])
    ensures PaidOk(txs + [t], installments[i := installments[i].(status := Paid)])
  {
    var rows := installments[i := installments[i].(status := Paid)];
    assert InstallmentOk(ws, txs, installments[i]);
    forall q | 0 <= q < |txs + [t]|
      ensures Sum(rows, PrincipalUnder(q)) == Drawn(txs + [t], q)
      ensures HasPlan(rows, q) ==> FindKey(txs + [t], CreditFund(q)).Some?
      ensures Sum(rows, CanceledUnder(q)) > 0 ==> FindKey(txs + [t], CreditFundReverse(q)).Some?
    {
      SumUpdate(installments, i, rows[i], PrincipalUnder(q));
      SumUpdate(installments, i, rows[i], CanceledUnder(q));
      FindKeySnoc(txs, t, CreditFund(q));
      FindKeySnoc(txs, t, CreditFundReverse(q));
      if q == |txs| {
        NoPlanYet(ws, txs, installments, q);
        NoDrawYet(wallets, |installments|, txs, q);
      }
      assert forall k :: 0 <= k < |rows| ==> rows[k].purchase == installments[k].purchase;
    }
    forall k | 0 <= k < |rows| && rows[k].status == Paid ensures FindKey(txs + [t], InstallmentRestore(k)).Some? {
      FindKeySnoc(txs, t, InstallmentRestore(k));
    }
  }

  lemma {:induction false} SettlementKeepsPlanRows(s: State, s': State, i: nat, tx: TxId)
    requires WalletsOk(s.wallets) && RowsOk(|s.wallets|, |s.installments|, s.txs) && MoneyOk(s.wallets, s.journal)
    requires InstallmentsOk(s.wallets, s.txs, s.installments)
    requires IsSettlement(s, s', i, tx) && Unpaid(s.installments[i])
    ensures WalletsOk(s'.wallets) && InstallmentsOk(s'.wallets, s'.txs, s'.installments)
        && MoneyOk(s'.wallets, s'.journal)
  {
    var row := s.installments[i];
    forall k | 0 <= k < |s'.installments| ensures InstallmentOk(s.wallets, s'.txs, s'.installments[k]) {
      assert InstallmentOk(s.wallets, s.txs, s.installments[k]);
    }
    ReceivableKeepsMoney(s.wallets, s.journal, tx, row.wallet, -row.principal);
    ShapeKeeps(s.wallets, s'.wallets, s'.txs, s'.installments, s'.journal);
  }

  lemma {:induction false} RestoreKeepsRows(s: State, s': State, t: Tx)
    requires RowsOk(|s.wallets|, |s.installments|, s.txs)
    requires |s'.wallets| == |s.wallets| && |s'.installments| == |s.installments| && s'.txs == s.txs + [t]
    requires t.kind == Virtual && t.status == Completed && t.amount > 0 && !t.key.CreditFund? && !IsRepayment(t)
    requires t.completes.None? && InTable(t.from, |s.wallets|) && InTable(t.to, |s.wallets|)
    ensures RowsOk(|s'.wallets|, |s'.installments|, s'.txs)
  {
    forall id | 0 <= id < |s'.txs| ensures RowOk(|s'.wallets|, |s'.installments|, s'.txs, id) {
      if id < |s.txs| {
        assert RowOk(|s.wallets|, |s.installments|, s.txs, id);
      }
    }
  }

  /** Settling an unpaid installment: the same principal leaves the debt and returns to the ceiling. */
  lemma {:induction false} SettleOneKeeps(s: State, i: nat, tx: TxId)
    requires Inv(s) && i < |s.installments| && Unpaid(s.installments[i]) && SettleOne(s, i, tx).Ok?
    ensures IsSettlement(s, SettleOne(s, i, tx).value, i, tx)
    ensures Kept(s, SettleOne(s, i, tx).value)
  {
    hide SameLines, SettleOne;
    assert InstallmentOk(s.wallets, s.txs, s.installments[i]);
    SettlementTables(s, i, tx);
    var s' := SettleOne(s, i, tx).value;
    SettlementKeepsPlanRows(s, s', i, tx);
    RestoreKeepsRows(s, s', s'.txs[|s.txs|]);
    SettlementKeepsPlans(|s.wallets|, s.wallets, s.txs, s.installments, i, s'.txs[|s.txs|]);
    SettlementKeepsBooks(s, s', i, tx);
    SettlementKeepsLine(s, s', i, tx);
  }

  lemma {:induction false} SettlementKeepsLine(s: State, s': State, i: nat, tx: TxId)
    requires IsSettlement(s, s', i, tx)
    ensures SameLines(s, s')
    ensures forall w: WalletId :: Balance(s'.journal, w) == Balance(s.journal, w)
  {
    hide ReceivableLegs;
    ReceivablePosted(s.journal, tx, Own(s, s.installments[i].wallet), -s.installments[i].principal);
  }

  /** Settling a row that is not unpaid takes principal off a debt that no longer has it. */
  lemma {:induction false} SettlingTwiceBreaksDebts(s: State, i: nat, tx: TxId)
    requires Inv(s) && i < |s.installments| && !Unpaid(s.installments[i]) && SettleOne(s, i, tx).Ok?
    ensures !DebtsOk(SettleOne(s, i, tx).value.journal, SettleOne(s, i, tx).value.installments)
    ensures s.installments[i].status == Canceled
  {
    assert InstallmentOk(s.wallets, s.txs, s.installments[i]);
    SettlementTables(s, i, tx);
    var s' := SettleOne(s, i, tx).value;
    SettledDebts(s, s', i, tx);
    assert Receivable(s'.journal, s.installments[i].wallet) != Sum(s'.installments, UnpaidOn(s.installments[i].wallet));
  }

  // ---- Canceling a plan ----

  function UnpaidUnder(p: TxId): Installment -> int {
    (i: Installment) => if i.purchase == p && Unpaid(i) then i.principal else 0
  }

  function NotPaidUnder(p: TxId): Installment -> int {
    (i: Installment) => if i.purchase == p && i.status != Paid then i.principal else 0
  }

  /** What was drawn is what is paid, what is unpaid and what was canceled; so the refund's clamp of the
      repaid principal to the draw never takes effect. */
  lemma {:induction false} PaidWithinDraw(s: State, p: TxId)
    requires Inv(s) && p < |s.txs|
    ensures Drawn(s.txs, p) == Sum(s.installments, PaidUnder(p)) + Sum(s.installments, UnpaidUnder(p))
                               + Sum(s.installments, CanceledUnder(p))
    ensures 0 <= Sum(s.installments, PaidUnder(p)) <= Drawn(s.txs, p)
    ensures UnpaidDraw(s, p) == Sum(s.installments, UnpaidUnder(p)) + Sum(s.installments, CanceledUnder(p))
    ensures Sum(s.installments, UnpaidUnder(p)) >= 0 && Sum(s.installments, CanceledUnder(p)) >= 0
    ensures UnpaidDraw(s, p) > 0 ==> FindKey(s.txs, CreditFund(p)).Some?
  {
    SumSplit(s.installments, PrincipalUnder(p), PaidUnder(p), NotPaidUnder(p));
    SumSplit(s.installments, NotPaidUnder(p), UnpaidUnder(p), CanceledUnder(p));
    forall i | 0 <= i < |s.installments| ensures s.installments[i].principal >= 0 {
      assert InstallmentOk(s.wallets, s.txs, s.installments[i]);
    }
    SumNonNegative(s.installments, UnpaidUnder(p));
    SumNonNegative(s.installments, CanceledUnder(p));
    SumNonNegative(s.installments, PaidUnder(p));
  }

  lemma {:induction false} CanceledPlanWeighs(installments: seq<Installment>, p: TxId, customer: WalletId)
    requires forall i :: 0 <= i < |installments| && installments[i].purchase == p ==> installments[i].wallet == customer
    ensures forall w: WalletId :: Sum(CancelPlan(installments, p), UnpaidOn(w))
              == Sum(installments, UnpaidOn(w)) - if w == customer then Sum(installments, UnpaidUnder(p)) else 0
    ensures forall q: TxId ::
        Sum(CancelPlan(installments, p), PrincipalUnder(q)) == Sum(installments, PrincipalUnder(q))
    ensures forall q: TxId :: Sum(CancelPlan(installments, p), PaidUnder(q)) == Sum(installments, PaidUnder(q))
    ensures forall q: TxId :: Sum(CancelPlan(installments, p), CanceledUnder(q))
              == Sum(installments, CanceledUnder(q)) + if q == p then Sum(installments, UnpaidUnder(p)) else 0
  {
    if |installments| > 0 {
      var init := installments[..|installments| - 1];
      CanceledPlanWeighs(init, p, customer);
      var canceled := CancelPlan(installments, p);
      assert canceled[..|canceled| - 1] == CancelPlan(init, p);
    }
  }

  function ReturnRows(p: TxId, customer: WalletId, r: WalletId, amount: int): seq<Tx> {
    [Row(Transfer, Completed, Some(customer), Some(r), amount, CreditFundReverse(p)),
     Row(Virtual, Completed, None, Some(customer), amount, CreditDrawReverse(p))]
  }

  /** The credit-line half of a refund, without its rows and without the money: plan canceled, purchase
      REVERSED, the unpaid principal back from the debt to the ceiling. */
  ghost predicate IsCancellation(s: State, s': State, p: TxId, customer: WalletId) {
    && p < |s.txs| && customer < |s.wallets| && s.txs[p].from == Some(customer)
    && var unpaid := UnpaidDraw(s, p);
       s' == s.(
         wallets :=
             s.wallets[customer := s.wallets[customer].(virtualAmount := s.wallets[customer].virtualAmount + unpaid)],
         journal := if unpaid == 0 then s.journal
                    else s.journal + [Entry(p, ReceivableLegs(Own(s, customer), -unpaid))],
         txs := s.txs[p := s.txs[p].(status := Reversed)],
         installments := CancelPlan(s.installments, p))
  }

  lemma {:induction false} CancellationKeepsRows(ws: seq<Wallet>, txs: seq<Tx>, installments: seq<Installment>, p: TxId)
    requires RowsOk(|ws|, |installments|, txs) && InstallmentsOk(ws, txs, installments)
    requires p < |txs| && IsPurchase(txs[p]) && txs[p].status == Completed
    ensures RowsOk(|ws|, |installments|, txs[p := txs[p].(status := Reversed)])
    ensures InstallmentsOk(ws, txs[p := txs[p].(status := Reversed)], CancelPlan(installments, p))
  {
    var after, rows := txs[p := txs[p].(status := Reversed)], CancelPlan(installments, p);
    forall id | 0 <= id < |after| ensures RowOk(|ws|, |installments|, after, id) {
      assert RowOk(|ws|, |installments|, txs, id);
    }
    forall i | 0 <= i < |rows| ensures InstallmentOk(ws, after, rows[i]) {
      assert InstallmentOk(ws, txs, installments[i]);
    }
  }

  lemma {:induction false} CancellationKeepsPlans(txs: seq<Tx>, installments: seq<Installment>, p: TxId,
      customer: WalletId)
    requires PlansOk(txs, installments) && PaidOk(txs, installments) && p < |txs|
    requires Sum(installments, UnpaidUnder(p)) > 0 ==> FindKey(txs, CreditFundReverse(p)).Some?
    requires forall i :: 0 <= i < |installments| && installments[i].purchase == p ==> installments[i].wallet == customer
    ensures PlansOk(txs[p := txs[p].(status := Reversed)], CancelPlan(installments, p))
    ensures PaidOk(txs[p := txs[p].(status := Reversed)], CancelPlan(installments, p))
  {
    var after, rows := txs[p := txs[p].(status := Reversed)], CancelPlan(installments, p);
    forall key: Key ensures FindKey(after, key) == FindKey(txs, key) {
      FindKeyUpdate(txs, p, after[p], key);
    }
    CanceledPlanWeighs(installments, p, customer);
    forall q | 0 <= q < |after|
      ensures Sum(rows, PrincipalUnder(q)) == Drawn(after, q)
      ensures HasPlan(rows, q) ==> FindKey(after, CreditFund(q)).Some?
      ensures Sum(rows, CanceledUnder(q)) > 0 ==> FindKey(after, CreditFundReverse(q)).Some?
    {
      assert forall i :: 0 <= i < |installments| ==> rows[i].purchase == installments[i].purchase;
    }
    forall i | 0 <= i < |rows| && rows[i].status == Paid ensures FindKey(after, InstallmentRestore(i)).Some? {
      assert installments[i].status == Paid;
    }
  }

  lemma {:induction false} CancellationKeepsLines(s: State, s': State, p: TxId, customer: WalletId)
    requires WalletsOk(s.wallets) && DebtsOk(s.journal, s.installments) && LinesOk(s.wallets, s.txs, s.journal)
    requires IsCancellation(s, s', p, customer) && IsPurchase(s.txs[p])
    requires UnpaidDraw(s, p) == Sum(s.installments, UnpaidUnder(p)) >= 0
    requires forall i :: 0 <= i < |s.installments| && s.installments[i].purchase == p ==>
        s.installments[i].wallet == customer
    ensures DebtsOk(s'.journal, s'.installments) && LinesOk(s'.wallets, s'.txs, s'.journal)
    ensures forall w: WalletId :: Balance(s'.journal, w) == Balance(s.journal, w)
  {
    hide CancelPlan, ReceivableLegs, UnpaidDraw, LinkOk;
    var unpaid := UnpaidDraw(s, p);
    CanceledPlanWeighs(s.installments, p, customer);
    if unpaid != 0 {
      ReceivablePosted(s.journal, p, Own(s, customer), -unpaid);
    }
    forall w: WalletId ensures Granted(s'.txs, w) == Granted(s.txs, w) {
      SumUpdate(s.txs, p, s'.txs[p], GrantedTo(w));
    }
  }

  lemma {:induction false} CancellationKeepsMoney(s: State, s': State, p: TxId, customer: WalletId)
    requires WalletsOk(s.wallets) && MoneyOk(s.wallets, s.journal) && IsCancellation(s, s', p, customer)
        && UnpaidDraw(s, p) >= 0
    requires InstallmentsOk(s.wallets, s'.txs, s'.installments)
    ensures WalletsOk(s'.wallets) && MoneyOk(s'.wallets, s'.journal)
        && InstallmentsOk(s'.wallets, s'.txs, s'.installments)
  {
    if UnpaidDraw(s, p) != 0 {
      ReceivableKeepsMoney(s.wallets, s.journal, p, customer, -UnpaidDraw(s, p));
    }
    ShapeKeeps(s.wallets, s'.wallets, s'.txs, s'.installments, s'.journal);
  }

  lemma {:induction false} PlanOfCompleted(s: State, p: TxId)
    requires Inv(s) && p < |s.txs| && s.txs[p].status == Completed
    ensures forall i :: 0 <= i < |s.installments| && s.installments[i].purchase == p ==>
              s.txs[p].from == Some(s.installments[i].wallet)
  {
    forall i | 0 <= i < |s.installments| && s.installments[i].purchase == p
      ensures s.txs[p].from == Some(s.installments[i].wallet)
    {
      assert InstallmentOk(s.wallets, s.txs, s.installments[i]);
    }
  }

  lemma {:induction false} CancellationKeeps(s: State, s': State, p: TxId, customer: WalletId)
    requires Inv(s) && IsCancellation(s, s', p, customer) && IsPurchase(s.txs[p]) && s.txs[p].status == Completed
    requires Sum(s.installments, CanceledUnder(p)) == 0
        && (UnpaidDraw(s, p) > 0 ==> FindKey(s.txs, CreditFundReverse(p)).Some?)
    ensures Kept(s, s')
    ensures forall w: WalletId :: Balance(s'.journal, w) == Balance(s.journal, w)
  {
    hide SameLines, SplitsOk, LinkOk, UnpaidDraw, CancelPlan, ReceivableLegs;
    SplitsStayGood(s.txs, s'.txs, s.overrides, s.defaults);
    PlanOfCompleted(s, p);
    PaidWithinDraw(s, p);
    CancellationKeepsRows(s.wallets, s.txs, s.installments, p);
    CancellationKeepsPlans(s.txs, s.installments, p, customer);
    CancellationKeepsLines(s, s', p, customer);
    CancellationKeepsMoney(s, s', p, customer);
    CancellationKeepsLine(s, s', p, customer);
  }

  lemma {:induction false} CancellationKeepsLine(s: State, s': State, p: TxId, customer: WalletId)
    requires IsCancellation(s, s', p, customer)
    ensures SameLines(s, s')
  {
    hide ReceivableLegs, CancelPlan, UnpaidDraw;
    if UnpaidDraw(s, p) != 0 {
      ReceivablePosted(s.journal, p, Own(s, customer), -UnpaidDraw(s, p));
    }
  }

  // ---- Granting and reclaiming ----

  function GrantRow(r: WalletId, w: WalletId, amount: int, key: string): Tx {
    Row(Virtual, Completed, Some(r), Some(w), amount, Client(key))
  }

  lemma {:induction false} StrangerNotGranted(wallets: nat, n: nat, txs: seq<Tx>, w: WalletId)
    requires RowsOk(wallets, n, txs) && w >= wallets
    ensures Granted(txs, w) == 0
  {
    forall i | 0 <= i < |txs| ensures GrantedTo(w)(txs[i]) == 0 {
      assert RowOk(wallets, n, txs, i);
    }
    SumZero(txs, GrantedTo(w));
  }

  /** New wallets at the end of the table disturb nothing that refers to the old ones. */
  lemma {:induction false} MoreWalletsKeep(s: State, vs: seq<Wallet>, txs: seq<Tx>)
    requires WalletsOk(s.wallets) && MoneyOk(s.wallets, s.journal)
    requires RowsOk(|vs|, |s.installments|, txs) && InstallmentsOk(s.wallets, txs, s.installments)
    requires |vs| > |s.wallets| && SameShape(s.wallets, vs[..|s.wallets|])
    ensures InstallmentsOk(vs, txs, s.installments) && MoneyOk(vs, s.journal)
    ensures forall w :: 0 <= w < |s.wallets| ==> LinkOk(vs, w)
  {
    assert forall w :: 0 <= w < |s.wallets| ==> vs[..|s.wallets|][w] == vs[w];
    forall i | 0 <= i < |s.installments| ensures InstallmentOk(vs, txs, s.installments[i]) {
      assert InstallmentOk(s.wallets, txs, s.installments[i]);
    }
    forall w | 0 <= w < |s.wallets| ensures LinkOk(vs, w) {
      assert LinkOk(s.wallets, w);
    }
    var hs, ks := HoldersOf(s.wallets), HoldersOf(vs);
    assert hs == ks[..|hs|];
    forall i, k | 0 <= i < |s.journal| && 0 <= k < |s.journal[i].legs| ensures Filed(ks, s.journal[i].legs[k]) {
      assert Filed(hs, s.journal[i].legs[k]);
    }
  }

  /** A grant keeps the books, whatever the type: what the pool loses is the new line. */
  lemma {:induction false} GrantKeeps(s: State, user: nat, r: WalletId, person: nat, typ: WalletType, amount: int,
      key: string)
    requires Inv(s) && GrantCredit(s, user, r, person, typ, amount, key).Ok?
    ensures Inv(GrantCredit(s, user, r, person, typ, amount, key).value)
    ensures IsGrant(s, GrantCredit(s, user, r, person, typ, amount, key).value, r, person, typ, amount, key)
  {
    hide Inv, IsGrant;
    var s' := GrantCredit(s, user, r, person, typ, amount, key).value;
    GrantTables(s, user, r, person, typ, amount, key);
    GrantedStateKeeps(s, s', r, person, typ, amount, key);
  }

  ghost predicate IsGrant(s: State, s': State, r: WalletId, person: nat, typ: WalletType, amount: int, key: string) {
    && r < |s.wallets| && s.wallets[r].typ.code == Repository && typ.code == CreditLine
    && typ.currency == s.wallets[r].typ.currency && 0 < amount <= s.wallets[r].virtualAmount
    && s' == s.(
      wallets := s.wallets[r := s.wallets[r].(virtualAmount := s.wallets[r].virtualAmount - amount)]
                 + [Wallet(typ, person, Some(r), amount, false, false, None)],
      txs := s.txs + [GrantRow(r, |s.wallets|, amount, key)])
  }

  lemma {:induction false} GrantTables(s: State, user: nat, r: WalletId, person: nat, typ: WalletType, amount: int,
      key: string)
    requires GrantCredit(s, user, r, person, typ, amount, key).Ok?
    ensures IsGrant(s, GrantCredit(s, user, r, person, typ, amount, key).value, r, person, typ, amount, key)
  {
  }

  lemma {:induction false} GrantedStateKeeps(s: State, s': State, r: WalletId, person: nat, typ: WalletType,
      amount: int, key: string)
    requires Inv(s) && IsGrant(s, s', r, person, typ, amount, key)
    ensures Inv(s')
  {
    var t := GrantRow(r, |s.wallets|, amount, key);
    assert LinkOk(s.wallets, r);
    assert SameShape(s.wallets, s'.wallets[..|s.wallets|]);
    SnocKeepsRows(s, t);
    SnocKeepsPlans(s, t);
    MoreWalletsKeep(s, s'.wallets, s'.txs);
    GrantKeepsLines(s, s', r, t);
    assert LinkOk(s'.wallets, |s.wallets|);
  }

  /** A VIRTUAL row between wallets of which the newer may be about to be created. */
  lemma {:induction false} SnocKeepsRows(s: State, t: Tx)
    requires RowsOk(|s.wallets|, |s.installments|, s.txs)
    requires t.kind == Virtual && t.status == Completed && t.amount > 0 && t.key.Client? && !IsRepayment(t)
        && t.completes.None?
    ensures forall n :: n >= |s.wallets| && InTable(t.from, n) && InTable(t.to, n) ==>
        RowsOk(n, |s.installments|, s.txs + [t])
  {
    forall n, id | n >= |s.wallets| && InTable(t.from, n) && InTable(t.to, n) && 0 <= id < |s.txs + [t]|
      ensures RowOk(n, |s.installments|, s.txs + [t], id)
    {
      if id < |s.txs| {
        assert RowOk(|s.wallets|, |s.installments|, s.txs, id);
      }
    }
  }

  /** Appending a row with a client key leaves draws, plans and restores as they were. */
  lemma {:induction false} SnocKeepsPlans(s: State, t: Tx)
    requires Inv(s) && t.key.Client?
    ensures PlansOk(s.txs + [t], s.installments) && PaidOk(s.txs + [t], s.installments)
    ensures InstallmentsOk(s.wallets, s.txs + [t], s.installments)
  {
    forall q | 0 <= q < |s.txs + [t]|
      ensures Sum(s.installments, PrincipalUnder(q)) == Drawn(s.txs + [t], q)
      ensures HasPlan(s.installments, q) ==> FindKey(s.txs + [t], CreditFund(q)).Some?
      ensures Sum(s.installments, CanceledUnder(q)) > 0 ==> FindKey(s.txs + [t], CreditFundReverse(q)).Some?
    {
      FindKeySnoc(s.txs, t, CreditFund(q));
      FindKeySnoc(s.txs, t, CreditFundReverse(q));
      if q == |s.txs| {
        NoPlanYet(s.wallets, s.txs, s.installments, q);
        NoDrawYet(|s.wallets|, |s.installments|, s.txs, q);
      }
    }
    forall i | 0 <= i < |s.installments| && s.installments[i].status == Paid
      ensures FindKey(s.txs + [t], InstallmentRestore(i)).Some?
    {
      FindKeySnoc(s.txs, t, InstallmentRestore(i));
    }
    forall i | 0 <= i < |s.installments| ensures InstallmentOk(s.wallets, s.txs + [t], s.installments[i]) {
      assert InstallmentOk(s.wallets, s.txs, s.installments[i]);
    }
  }

  lemma {:induction false} GrantKeepsLines(s: State, s': State, r: WalletId, t: Tx)
    requires RowsOk(|s.wallets|, |s.installments|, s.txs) && MoneyOk(s.wallets, s.journal)
    requires LinesOk(s.wallets, s.txs, s.journal) && r < |s.wallets| && s.wallets[r].repository.None?
    requires t.kind == Virtual && t.from == Some(r) && t.to == Some(|s.wallets|)
    requires s'.txs == s.txs + [t] && s'.journal == s.journal && |s'.wallets| == |s.wallets| + 1
    requires forall w :: 0 <= w < |s.wallets| && w != r ==> s'.wallets[w] == s.wallets[w]
    requires s'.wallets[r].repository.None? && s'.wallets[|s.wallets|].virtualAmount == t.amount
    ensures LinesOk(s'.wallets, s'.txs, s'.journal)
  {
    StrangerNotGranted(|s.wallets|, |s.installments|, s.txs, |s.wallets|);
    StrangersHoldNothing(HoldersOf(s.wallets), s.journal, |s.wallets|);
    forall w: WalletId ensures Granted(s'.txs, w) == Granted(s.txs, w) + GrantedTo(w)(t) {
      SumSnoc(s.txs, t, GrantedTo(w));
    }
  }

  lemma {:induction false} OutstandingPrincipal(installments: seq<Installment>, w: WalletId)
    ensures Sum(OutstandingRows(installments, w), PrincipalOf()) == Sum(installments, UnpaidOn(w))
    ensures forall i :: 0 <= i < |OutstandingRows(installments, w)| ==>
              var row := OutstandingRows(installments, w)[i];
              row in installments && row.wallet == w && Unpaid(row)
  {
    if |installments| > 0 {
      var init, last := installments[..|installments| - 1], installments[|installments| - 1];
      OutstandingPrincipal(init, w);
      if last.wallet == w && Unpaid(last) {
        SumSnoc(OutstandingRows(init, w), last, PrincipalOf());
      }
    }
  }

  ghost predicate IsReclaim(s: State, s': State, w: WalletId, key: string) {
    && w < |s.wallets| && s.wallets[w].repository.Some? && s.wallets[w].repository.value < |s.wallets|
    && s.wallets[w].virtualAmount > 0
    && var r, reclaimed := s.wallets[w].repository.value, s.wallets[w].virtualAmount;
       && r != w
       && s' == s.(
         wallets := s.wallets[r := s.wallets[r].(virtualAmount := s.wallets[r].virtualAmount + reclaimed)]
                             [w := s.wallets[w].(virtualAmount := 0, closed := true)],
         txs := s.txs + [Row(Virtual, Completed, Some(w), Some(r), reclaimed, Client(key))])
  }

  lemma {:induction false} ReclaimedStateKeeps(s: State, s': State, w: WalletId, key: string)
    requires Inv(s) && IsReclaim(s, s', w, key) && Receivable(s.journal, w) == 0
    ensures Inv(s') && Granted(s'.txs, w) == 0
  {
    hide FindKey, Accrued, DebtsOk, LinesOk, GoodSplit, SlicesNonNegative;
    var r, reclaimed := s.wallets[w].repository.value, s.wallets[w].virtualAmount;
    var t := Row(Virtual, Completed, Some(w), Some(r), reclaimed, Client(key));
    assert LinkOk(s.wallets, w);
    SnocKeepsRows(s, t);
    SnocKeepsPlans(s, t);
    ShapeKeeps(s.wallets, s'.wallets, s'.txs, s.installments, s.journal);
    ReclaimKeepsLines(s, s', w, key);
  }

  lemma {:induction false} ReclaimKeepsLines(s: State, s': State, w: WalletId, key: string)
    requires WalletsOk(s.wallets) && LinesOk(s.wallets, s.txs, s.journal)
    requires IsReclaim(s, s', w, key) && Receivable(s.journal, w) == 0
    ensures LinesOk(s'.wallets, s'.txs, s'.journal) && Granted(s'.txs, w) == 0
  {
    assert LinkOk(s.wallets, w);
    var t := s'.txs[|s.txs|];
    forall v: WalletId ensures Granted(s'.txs, v) == Granted(s.txs, v) + GrantedTo(v)(t) {
      SumSnoc(s.txs, t, GrantedTo(v));
    }
  }

  lemma {:induction false} ReclaimTables(s: State, w: WalletId, key: string)
    requires WalletsOk(s.wallets) && CloseAndReclaim(s, w, key).Ok?
    ensures w < |s.wallets| && s.wallets[w].repository.Some? && |OutstandingRows(s.installments, w)| == 0
    ensures var s' := CloseAndReclaim(s, w, key).value;
            if s.wallets[w].virtualAmount > 0 then IsReclaim(s, s', w, key)
            else s' == s.(wallets := s.wallets[w := s.wallets[w].(closed := true)])
  {
    assert LinkOk(s.wallets, w);
  }

  lemma {:induction false} OwesNothing(s: State, w: WalletId)
    requires Inv(s) && |OutstandingRows(s.installments, w)| == 0
    ensures Receivable(s.journal, w) == 0
  {
    OutstandingPrincipal(s.installments, w);
  }

  lemma {:induction false} GrantOf(s: State, w: WalletId)
    requires Inv(s) && w < |s.wallets| && s.wallets[w].repository.Some?
    ensures s.wallets[w].virtualAmount >= 0 && LinkOk(s.wallets, w)
    ensures s.wallets[w].virtualAmount + Receivable(s.journal, w) == Granted(s.txs, w)
  {
    assert LinkOk(s.wallets, w);
  }

  /** Closing a line that owes nothing hands back exactly what it was granted. */
  lemma {:induction false} ReclaimKeeps(s: State, w: WalletId, key: string)
    requires Inv(s) && CloseAndReclaim(s, w, key).Ok?
    ensures w < |s.wallets| && s.wallets[w].repository.Some? && s.wallets[w].repository.value < |s.wallets|
    ensures Inv(CloseAndReclaim(s, w, key).value)
    ensures var s' := CloseAndReclaim(s, w, key).value;
            var r := s.wallets[w].repository.value;
            && Receivable(s.journal, w) == 0 && s'.journal == s.journal && |s'.wallets| == |s.wallets|
            && s'.wallets[w].virtualAmount == 0 && Granted(s'.txs, w) == 0
            && s'.wallets[r].virtualAmount == s.wallets[r].virtualAmount + Granted(s.txs, w)
  {
    hide CloseAndReclaim, Inv;
    var s' := CloseAndReclaim(s, w, key).value;
    InvMoney(s);
    ReclaimTables(s, w, key);
    OwesNothing(s, w);
    GrantOf(s, w);
    if s.wallets[w].virtualAmount > 0 {
      ReclaimedStateKeeps(s, s', w, key);
    } else {
      FlagsKeep(s, s'.wallets);
    }
  }
}
