/** Draw, repay, refund: a purchase paid from a credit line, repaid in part with real money and refunded
    while the rest of the system goes on, leaves the line as it found it. */
module RoundTrip {
  import opened Common
  import opened Sums
  import opened Ledger
  import opened Installments
  import opened Settlement
  import opened Bank
  import opened BankInvariant
  import opened CreditLines
  import opened MoneyMoves
  import opened Purchases
  import opened Repayments
  import opened History
  import opened Safety
  import opened Bystanders

  // ---- Looking a key up in a table that only grew ----

  lemma {:induction false} FindKeyIs(txs: seq<Tx>, key: Key, f: TxId)
    requires f < |txs| && txs[f].key == key && forall i :: 0 <= i < f ==> txs[i].key != key
    ensures FindKey(txs, key) == Some(f)
  {
    if f < |txs| - 1 {
      FindKeyIs(txs[..|txs| - 1], key, f);
    } else {
      assert FindKey(txs[..|txs| - 1], key).None?;
    }
  }

  lemma {:induction false} FindKeyFirst(txs: seq<Tx>, key: Key)
    requires FindKey(txs, key).Some?
    ensures forall i :: 0 <= i < FindKey(txs, key).value ==> txs[i].key != key
  {
    if FindKey(txs[..|txs| - 1], key).Some? {
      FindKeyFirst(txs[..|txs| - 1], key);
    }
  }

  lemma {:induction false} FindKeyGrown(a: seq<Tx>, b: seq<Tx>, key: Key)
    requires |a| <= |b| && forall i :: 0 <= i < |a| ==> b[i].key == a[i].key
    requires FindKey(a, key).Some?
    ensures FindKey(b, key) == FindKey(a, key)
  {
    FindKeyFirst(a, key);
    FindKeyIs(b, key, FindKey(a, key).value);
  }

  // ---- A purchase that drew on a line ----

  /** Purchase `p` is completed and drew `drawn` on line `c`, which repository `r` backs; nothing of it is canceled. */
  predicate Drew(s: State, p: TxId, c: WalletId, r: WalletId, drawn: int) {
    && PaidFrom(s, p, c, r) && FindKey(s.txs, CreditFund(p)).Some?
    && s.txs[FindKey(s.txs, CreditFund(p)).value].from == Some(r) && Drawn(s.txs, p) == drawn
    && Sum(s.installments, CanceledUnder(p)) == 0 && RepaysHome(s)
  }

  /** The sub-repositories of a credit type are merchant repositories, never a line or what backs it. */
  predicate SubsApart(terms: Terms, c: WalletId, r: WalletId) {
    && terms.feeRepository != Some(c) && terms.feeRepository != Some(r)
    && terms.penaltyRepository != Some(c) && terms.penaltyRepository != Some(r)
    && terms.unblockRepository != Some(c) && terms.unblockRepository != Some(r)
  }

  predicate SamePurchase(s: State, s': State, p: TxId, c: WalletId) {
    && p < |s.txs| && p < |s'.txs| && s'.txs[p].amount == s.txs[p].amount && s'.txs[p].to == s.txs[p].to
    && c < |s.wallets| && c < |s'.wallets| && s'.wallets[c].typ == s.wallets[c].typ && Line(s', c) == Line(s, c)
  }

  /** How far a later state has come in repaying `p`: the principal is back on the ceiling and, with the
      slices that could not be routed, on the repository. */
  ghost predicate Repaid(s: State, s': State, p: TxId, c: WalletId, r: WalletId, drawn: int, stays: int) {
    && Drew(s, p, c, r, drawn) && Drew(s', p, c, r, drawn) && SamePurchase(s, s', p, c)
    && s'.wallets[c].virtualAmount - Sum(s'.installments, PaidUnder(p))
       == s.wallets[c].virtualAmount - Sum(s.installments, PaidUnder(p))
    && Balance(s'.journal, r) - Sum(s'.installments, PaidUnder(p)) - stays
       == Balance(s.journal, r) - Sum(s.installments, PaidUnder(p))
    && Balance(s'.journal, c) == Balance(s.journal, c)
  }

  lemma {:induction false} RepaidThrough(a: State, b: State, d: State, p: TxId, c: WalletId, r: WalletId, drawn: int,
      x: int, y: int)
    requires Repaid(a, b, p, c, r, drawn, x) && Repaid(b, d, p, c, r, drawn, y)
    ensures Repaid(a, d, p, c, r, drawn, x + y)
  {
    hide Drew;
  }

  lemma {:induction false} RepaidAtFirst(s: State, p: TxId, c: WalletId, r: WalletId, drawn: int)
    requires Drew(s, p, c, r, drawn)
    ensures Repaid(s, s, p, c, r, drawn, 0)
  {
  }

  /** Rows and plans only change as their kinds allow: what was drawn stays on record. */
  lemma {:induction false} StillDrew(s: State, s': State, p: TxId, c: WalletId, r: WalletId, drawn: int,
      revived: set<TxId>)
    requires Formed(s) && Drew(s, p, c, r, drawn) && Follows(s, s', revived)
    requires s'.txs[p].status == Completed && Sum(s'.installments, CanceledUnder(p)) == 0
    ensures Drew(s', p, c, r, drawn) && s'.txs[p].amount == s.txs[p].amount && s'.txs[p].to == s.txs[p].to
    ensures c < |s'.wallets| && s'.wallets[c].typ == s.wallets[c].typ
  {
    hide Formed;
    var f := FindKey(s.txs, CreditFund(p)).value;
    FormedRow(s, f);
    FindKeyGrown(s.txs, s'.txs, CreditFund(p));
    assert RowFollows(s.txs[p], s'.txs[p]) && RowFollows(s.txs[f], s'.txs[f]);
    assert s'.wallets[..|s.wallets|][c] == s'.wallets[c];
  }

  // ---- Completing ----

  /** What a settlement that draws leaves behind. */
  lemma {:induction false} SettleDraws(s: State, p: TxId, support: Option<Funding>, today: Date)
    requires Inv(s) && RepaysHome(s) && Ready(s, p, support) && OnCalendar(today) && Settle(s, p, support, today).Ok?
    requires s.txs[p].status == Awaiting && DrawsOnLine(s, s.txs[p].from.value, Remainder(s, p, support))
    ensures var s', c, drawn := Settle(s, p, support, today).value, s.txs[p].from.value, Remainder(s, p, support);
            && Drew(s', p, c, s.wallets[c].repository.value, drawn) && s'.txs[p] == s.txs[p].(status := Completed)
            && s'.wallets == s.wallets[c := s.wallets[c].(virtualAmount := s.wallets[c].virtualAmount - drawn)]
            && Sum(s'.installments, PaidUnder(p)) == 0
  {
    hide Inv, Settle, FundPurchase, IsDraw, RepaysHome, Formed, Drawn;
    var c, drawn := s.txs[p].from.value, Remainder(s, p, support);
    InvPlans(s);
    SettledHome(s, p, support, today);
    var s2 := SettledTables(s, p, support, today);
    AwaitingHasNoPlan(s, p);
    DrewAfter(Funded(s, p, support), s2, p, c, drawn, today);
  }

  lemma {:induction false} SettledHome(s: State, p: TxId, support: Option<Funding>, today: Date)
    requires Inv(s) && RepaysHome(s) && Ready(s, p, support) && OnCalendar(today) && Settle(s, p, support, today).Ok?
    ensures RepaysHome(Settle(s, p, support, today).value)
  {
    hide Inv, Settle, RepaysHome, Formed;
    InvFormed(s);
    SettleGrows(s, p, support, today);
  }

  lemma {:induction false} SettledTables(s: State, p: TxId, support: Option<Funding>, today: Date) returns (s2: State)
    requires PlansDrawn(s.txs, s.installments) && Ready(s, p, support) && OnCalendar(today)
        && Settle(s, p, support, today).Ok?
    requires DrawsOnLine(s, s.txs[p].from.value, Remainder(s, p, support))
    ensures IsDraw(Funded(s, p, support), s2, p, s.txs[p].from.value, Remainder(s, p, support), today) && p < |s2.txs|
    ensures var s' := Settle(s, p, support, today).value; s' == SetStatus(s2, p, Completed).(journal := s'.journal)
  {
    hide Settle, FundPurchase, IsDraw, PlansDrawn, PurchaseLegs;
    s2 := SettleUnfolds(s, p, support, today);
    FundingTables(s, s2, p, support, today);
  }

  lemma {:induction false} DrewAfter(s: State, s2: State, p: TxId, c: WalletId, drawn: int, today: Date)
    requires IsDraw(s, s2, p, c, drawn, today) && p < |s.txs| && IsPurchase(s.txs[p]) && s.txs[p].from == Some(c)
    ensures p < |s2.txs|
    ensures var s', r := SetStatus(s2, p, Completed), s.wallets[c].repository.value;
            && PaidFrom(s', p, c, r) && FindKey(s'.txs, CreditFund(p)).Some? && Drawn(s'.txs, p) == drawn
            && s'.txs[FindKey(s'.txs, CreditFund(p)).value].from == Some(r)
                && Sum(s'.installments, CanceledUnder(p)) == 0
            && s'.txs[p] == s.txs[p].(status := Completed) && Sum(s2.installments, PaidUnder(p)) == 0
            && s2.wallets == s.wallets[c := s.wallets[c].(virtualAmount := s.wallets[c].virtualAmount - drawn)]
  {
    hide Schedule, ReceivableLegs;
    FundFound(s.txs, FundRow(s, p, c, drawn), DrawRow(p, c, drawn), p);
    FindKeyUpdate(s2.txs, p, s2.txs[p].(status := Completed), CreditFund(p));
    FreshPlanUnpaid(s, p, c, drawn, today);
  }

  lemma {:induction false} FundFound(txs: seq<Tx>, a: Tx, b: Tx, p: TxId)
    requires FindKey(txs, CreditFund(p)).None? && a.key == CreditFund(p) && !b.key.CreditFund?
    ensures FindKey(txs + [a, b], CreditFund(p)) == Some(|txs|)
  {
    FindKeyIs(txs + [a, b], CreditFund(p), |txs|);
  }

  lemma {:induction false} FreshPlanUnpaid(s: State, p: TxId, c: WalletId, drawn: int, today: Date)
    requires !HasPlan(s.installments, p) && c < |s.wallets| && OnCalendar(today)
    ensures Sum(s.installments + DrawPlan(s, p, c, drawn, today), PaidUnder(p)) == 0
    ensures Sum(s.installments + DrawPlan(s, p, c, drawn, today), CanceledUnder(p)) == 0
  {
    hide Schedule;
    SumConcat(s.installments, DrawPlan(s, p, c, drawn, today), CanceledUnder(p));
    SumZero(s.installments, CanceledUnder(p));
    SumZero(DrawPlan(s, p, c, drawn, today), CanceledUnder(p));
    SumConcat(s.installments, DrawPlan(s, p, c, drawn, today), PaidUnder(p));
    SumZero(s.installments, PaidUnder(p));
    SumZero(DrawPlan(s, p, c, drawn, today), PaidUnder(p));
  }

  // ---- Repaying ----

  /** The gateway confirms, or does not confirm, a repayment of the purchase. */
  predicate RepaysPurchase(s: State, p: TxId, op: Op) {
    op.OpVerify? && op.tx < |s.txs| && s.txs[op.tx].installment.Some?
        && s.txs[op.tx].installment.value < |s.installments|
    && s.installments[s.txs[op.tx].installment.value].purchase == p
  }

  /** Between completion and refund: repayments of the purchase, everything that goes on elsewhere, and any
      other request, short of closing the line, that happens to move neither line nor repository. */
  ghost predicate Between(s: State, op: Op, p: TxId, c: WalletId, r: WalletId) {
    || RepaysPurchase(s, p, op)
    || (Safe(s, op) && (Apart(s, op, p, c, r) || (!op.OpReclaim? && Untouched(s, Next(s, op), p, c, r))))
  }

  ghost predicate RunBetween(s: State, ops: seq<Op>, p: TxId, c: WalletId, r: WalletId) {
    |ops| > 0 ==> RunBetween(s, ops[..|ops| - 1], p, c, r) && Between(Run(s, ops[..|ops| - 1]), ops[|ops| - 1], p, c, r)
  }

  /** The fee, penalty and unblock slices of a repayment of `p` that had no open sub-repository to go to. */
  function StaysIn(s: State, op: Op, p: TxId): int {
    if RepaysPurchase(s, p, op) && op.paid && Step(s, op).Ok? && Chargeable(s, op.tx) && s.txs[op.tx].status == Awaiting
       && ChargeOf(s, op.tx).Ok?
    then Sum(ChargeOf(s, op.tx).value.parts, PartStays(s.wallets)) else 0
  }

  function StaysInRun(s: State, ops: seq<Op>, p: TxId): int {
    if |ops| == 0 then 0
    else StaysInRun(s, ops[..|ops| - 1], p) + StaysIn(Run(s, ops[..|ops| - 1]), ops[|ops| - 1], p)
  }

  lemma {:induction false} ApartParts(ws: seq<Wallet>, terms: Terms, fee: int, penalty: int, unblockFee: int,
      w: WalletId)
    requires terms.feeRepository != Some(w) && terms.penaltyRepository != Some(w) && terms.unblockRepository != Some(w)
    ensures Sum(Parts(terms, fee, penalty, unblockFee), PartTo(ws, w)) == 0
  {
    SumZero(Parts(terms, fee, penalty, unblockFee), PartTo(ws, w));
  }

  /** The charge for one installment: its principal, and nothing routed back to the line or its repository. */
  lemma {:induction false} ChargeForOne(s: State, t: TxId, c: WalletId, r: WalletId)
    requires Chargeable(s, t) && s.txs[t].installment.Some? && ChargeOf(s, t).Ok?
    requires s.installments[s.txs[t].installment.value].wallet == c && c < |s.wallets|
    requires SubsApart(s.wallets[c].typ.terms, c, r)
    ensures ChargeOf(s, t).value.principal == s.installments[s.txs[t].installment.value].principal
    ensures Sum(ChargeOf(s, t).value.parts, PartTo(s.wallets, c)) == 0
    ensures Sum(ChargeOf(s, t).value.parts, PartTo(s.wallets, r)) == 0
  {
    var i := s.installments[s.txs[t].installment.value];
    var split := RepaymentSplit([i]);
    var unblockFee := s.txs[t].amount - split.principal - split.fee - split.penalty;
    ApartParts(s.wallets, s.wallets[c].typ.terms, split.fee, split.penalty, unblockFee, c);
    ApartParts(s.wallets, s.wallets[c].typ.terms, split.fee, split.penalty, unblockFee, r);
    SumSnoc([], i, PrincipalOf());
    assert [] + [i] == [i];
  }

  lemma {:induction false} StillUnpaid(s: State, s1: State, i: nat, t: TxId)
    requires Inv(s) && Inv(s1) && s1.installments == s.installments && i < |s.installments| && MarkPaid(s1, i, t).Ok?
    requires Sum(s.installments, CanceledUnder(s.installments[i].purchase)) == 0
    ensures Unpaid(s.installments[i])
  {
    hide Inv, SettleOne;
    InvInstallment(s, i);
    if !Unpaid(s.installments[i]) {
      SettlingTwiceBreaksDebts(s1, i, t);
      NothingCanceled(s, i);
      InvInstallment(s1, i);
      SettlementTables(s1, i, t);
    }
  }

  lemma {:induction false} NothingCanceled(s: State, i: nat)
    requires Inv(s) && i < |s.installments| && Sum(s.installments, CanceledUnder(s.installments[i].purchase)) == 0
    ensures s.installments[i].status == Canceled ==> s.installments[i].principal == 0
  {
    hide Inv;
    var p := s.installments[i].purchase;
    forall k | 0 <= k < |s.installments| ensures CanceledUnder(p)(s.installments[k]) >= 0 {
      InvInstallment(s, k);
    }
    SumNonNegative(s.installments, CanceledUnder(p));
    InvInstallment(s, i);
    assert CanceledUnder(p)(s.installments[i]) <= 0;
  }

  /** What settling one installment does to its line, its plan and the balances. */
  lemma {:induction false} MarkedPaid(s: State, i: nat, t: TxId, p: TxId)
    requires Inv(s) && i < |s.installments| && Unpaid(s.installments[i]) && s.installments[i].purchase == p
    requires MarkPaid(s, i, t).Ok?
    ensures var s', row := MarkPaid(s, i, t).value, s.installments[i];
            && row.wallet < |s.wallets| == |s'.wallets| && s.txs <= s'.txs && NoRepaymentsFrom(s'.txs, |s.txs|)
            && s'.wallets[row.wallet].virtualAmount == s.wallets[row.wallet].virtualAmount + row.principal
            && s'.wallets[row.wallet].typ == s.wallets[row.wallet].typ
            && s'.wallets[row.wallet].repository == s.wallets[row.wallet].repository
            && Sum(s'.installments, PaidUnder(p)) == Sum(s.installments, PaidUnder(p)) + row.principal
            && Sum(s'.installments, CanceledUnder(p)) == Sum(s.installments, CanceledUnder(p))
            && (forall w: WalletId :: Balance(s'.journal, w) == Balance(s.journal, w))
            && s'.installments == s.installments[i := row.(status := Paid)]
  {
    hide Inv, SettleOne;
    InvInstallment(s, i);
    SettlementTables(s, i, t);
    var s1 := SettleOne(s, i, t).value;
    SettlementKeepsLine(s, s1, i, t);
    SumUpdate(s.installments, i, s.installments[i].(status := Paid), PaidUnder(p));
    SumUpdate(s.installments, i, s.installments[i].(status := Paid), CanceledUnder(p));
  }

  /** One verified repayment: principal and unroutable slices to the repository, principal to the ceiling. */
  lemma {:induction false} RepaymentVerified(s: State, t: TxId, p: TxId, c: WalletId, r: WalletId, drawn: int)
    requires Inv(s) && Drew(s, p, c, r, drawn) && SubsApart(s.wallets[c].typ.terms, c, r)
    requires t < |s.txs| && s.txs[t].installment.Some? && s.txs[t].installment.value < |s.installments|
    requires s.installments[s.txs[t].installment.value].purchase == p
    requires s.txs[t].status == Awaiting && ReceiveMoney(s, t).Ok?
    ensures Chargeable(s, t) && ChargeOf(s, t).Ok?
    ensures var s' := ReceiveMoney(s, t).value;
            Inv(s') && Repaid(s, s', p, c, r, drawn, Sum(ChargeOf(s, t).value.parts, PartStays(s.wallets)))
  {
    hide Inv, SameLines, LandRepayment, MarkPaid, ChargeOf, Drew, Formed, Follows;
    DrewFacts(s, p, c, r, drawn, t);
    var i := s.txs[t].installment.value;
    InvRow(s, t);
    LandRepaymentKeeps(s, t);
    ChargeForOne(s, t, c, r);
    var s1 := LandRepayment(s, t, r).value;
    StillUnpaid(s, s1, i, t);
    MarkedPaid(s1, i, t, p);
    ReceiveKeepsExactly(s, t);
    InvFormed(s);
    ReceiveGrows(s, t);
    var none: set<TxId> := {};
    StillDrew(s, ReceiveMoney(s, t).value, p, c, r, drawn, none);
    SameLine(s, ReceiveMoney(s, t).value, c);
  }

  lemma {:induction false} SameLine(s: State, s': State, c: WalletId)
    requires SameLines(s, s') && c < |s.wallets|
    ensures c < |s'.wallets| && Line(s', c) == Line(s, c)
  {
  }

  lemma {:induction false} DrewFacts(s: State, p: TxId, c: WalletId, r: WalletId, drawn: int, t: TxId)
    requires Inv(s) && Drew(s, p, c, r, drawn) && t < |s.txs|
    ensures p < |s.txs| && s.txs[p].status == Completed && s.txs[p].from == Some(c)
    ensures Sum(s.installments, CanceledUnder(p)) == 0
    ensures c < |s.wallets| && s.wallets[c].repository == Some(r) && r != c && r < |s.wallets|
    ensures var i := s.txs[t].installment;
            i.Some? && i.value < |s.installments| && s.installments[i.value].purchase == p ==>
              s.txs[t].to == Some(r) && s.installments[i.value].wallet == c
  {
    assert LinkOk(s.wallets, c);
    assert Home(s, s.txs[t]);
    PlanOfCompleted(s, p);
  }

  /** A request elsewhere, or one that leaves line and repository alone, leaves the purchase where it was. */
  lemma {:induction false} BystanderStep(s: State, op: Op, p: TxId, c: WalletId, r: WalletId, drawn: int)
    requires Inv(s) && Drew(s, p, c, r, drawn) && Safe(s, op) && Step(s, op).Ok? && (op.OpReclaim? ==> op.wallet != c)
    requires Untouched(s, Step(s, op).value, p, c, r)
    ensures Inv(Step(s, op).value) && Repaid(s, Step(s, op).value, p, c, r, drawn, 0)
  {
    hide Inv, Safe, Formed, Step, Line, RepaysHome, Follows;
    var s' := Step(s, op).value;
    InvFormed(s);
    StepGrows(s, op);
    StillDrew(s, s', p, c, r, drawn, Revives(s, op));
    StepKeepsLine(s, op, c);
  }

  lemma {:induction false} BetweenStep(s: State, op: Op, p: TxId, c: WalletId, r: WalletId, drawn: int)
    requires Inv(s) && Drew(s, p, c, r, drawn) && SubsApart(s.wallets[c].typ.terms, c, r) && Between(s, op, p, c, r)
    ensures Inv(Next(s, op)) && Repaid(s, Next(s, op), p, c, r, drawn, StaysIn(s, op, p))
  {
    hide Inv, SubsApart, ReceiveMoney, ChargeOf, Safe, Apart, Untouched, Repaid, Step;
    RepaidAtFirst(s, p, c, r, drawn);
    if Step(s, op).Ok? {
      if RepaysPurchase(s, p, op) {
        RepaymentStep(s, op, p, c, r, drawn);
      } else {
        if Apart(s, op, p, c, r) {
          ApartIsUntouched(s, op, p, c, r);
          ApartCloses(s, op, p, c, r);
        }
        BystanderStep(s, op, p, c, r, drawn);
      }
    }
  }

  lemma {:induction false} ApartCloses(s: State, op: Op, p: TxId, c: WalletId, r: WalletId)
    requires Apart(s, op, p, c, r)
    ensures op.OpReclaim? ==> op.wallet != c
  {
  }

  lemma {:induction false} RepaymentStep(s: State, op: Op, p: TxId, c: WalletId, r: WalletId, drawn: int)
    requires Inv(s) && Drew(s, p, c, r, drawn) && SubsApart(s.wallets[c].typ.terms, c, r)
    requires RepaysPurchase(s, p, op) && Step(s, op).Ok?
    ensures Inv(Next(s, op)) && Repaid(s, Next(s, op), p, c, r, drawn, StaysIn(s, op, p))
  {
    hide Inv, Drew, ReceiveMoney, ChargeOf, SubsApart, Repaid;
    RepaidAtFirst(s, p, c, r, drawn);
    InvRow(s, op.tx);
    if s.txs[op.tx].status == Awaiting && op.paid {
      RepaymentVerified(s, op.tx, p, c, r, drawn);
    }
  }

  lemma {:induction false} RunRepays(s: State, ops: seq<Op>, p: TxId, c: WalletId, r: WalletId, drawn: int)
    requires Inv(s) && Drew(s, p, c, r, drawn) && SubsApart(s.wallets[c].typ.terms, c, r) && RunBetween(s, ops, p, c, r)
    ensures Inv(Run(s, ops)) && Repaid(s, Run(s, ops), p, c, r, drawn, StaysInRun(s, ops, p))
  {
    hide Inv, Drew, Next, StaysIn, Between, SubsApart;
    RepaidAtFirst(s, p, c, r, drawn);
    if |ops| > 0 {
      var init, op := ops[..|ops| - 1], ops[|ops| - 1];
      RunRepays(s, init, p, c, r, drawn);
      BetweenStep(Run(s, init), op, p, c, r, drawn);
      RepaidThrough(s, Run(s, init), Run(s, ops), p, c, r, drawn, StaysInRun(s, init, p), StaysIn(Run(s, init), op, p));
    }
  }

  // ---- Refunding ----

  /** A refund gives back what is still unpaid of the draw, and takes nothing twice. */
  lemma {:induction false} RefundRestores(s: State, p: TxId, key: string, c: WalletId, r: WalletId, drawn: int)
    requires Inv(s) && Drew(s, p, c, r, drawn) && RefundCompleted(s, p, key).Ok? && drawn <= s.txs[p].amount
    ensures c < |s.wallets| && s.txs[p].to.Some?
    ensures var s', paid := RefundCompleted(s, p, key).value, Sum(s.installments, PaidUnder(p));
            && SameLines(s, s') && c < |s'.wallets| && 0 <= paid <= drawn
            && s'.wallets[c].virtualAmount == s.wallets[c].virtualAmount + drawn - paid
            && forall w: WalletId :: Balance(s'.journal, w) == Balance(s.journal, w)
                 + (if w == c then s.txs[p].amount - (drawn - paid) else 0) + (if w == r then drawn - paid else 0)
                 - (if s.txs[p].to == Some(w) then s.txs[p].amount else 0)
  {
    hide Inv, SameLines, RefundCompleted;
    RefundKeeps(s, p, key);
    PlanOfCompleted(s, p);
    PaidWithinDraw(s, p);
    PaidSumNonNegative(s, p);
  }

  lemma {:induction false} PaidSumNonNegative(s: State, p: TxId)
    requires Inv(s)
    ensures Sum(s.installments, PaidUnder(p)) >= 0
  {
    forall i | 0 <= i < |s.installments| ensures PaidUnder(p)(s.installments[i]) >= 0 {
      InvInstallment(s, i);
    }
    SumNonNegative(s.installments, PaidUnder(p));
  }

  /** Completing a credit-funded purchase, repaying any of its installments in any order with real money
      while the rest of the system goes on, penalties and all, then refunding it: ceiling and debt are
      exactly as before; the repository kept only slices that had no open sub-repository; the customer's
      wallet gained exactly the principal repaid and the part a top-up had paid. */
  lemma {:induction false} DrawRepayRefund(s: State, p: TxId, support: Option<Funding>, today: Date, ops: seq<Op>,
      key: string)
    requires Inv(s) && RepaysHome(s) && Ready(s, p, support) && OnCalendar(today) && s.txs[p].status == Awaiting
    requires DrawsOnLine(s, s.txs[p].from.value, Remainder(s, p, support))
    requires PlansInstallments(s.wallets[s.txs[p].from.value].typ.terms)
    requires SubsApart(s.wallets[s.txs[p].from.value].typ.terms, s.txs[p].from.value,
                       s.wallets[s.txs[p].from.value].repository.value)
    requires Settle(s, p, support, today).Ok?
    requires var s1, c := Settle(s, p, support, today).value, s.txs[p].from.value;
             && RunBetween(s1, ops, p, c, s.wallets[c].repository.value)
             && p < |Run(s1, ops).txs| && RefundCompleted(Run(s1, ops), p, key).Ok?
    ensures var c := s.txs[p].from.value;
            var r := s.wallets[c].repository.value;
            var s1 := Settle(s, p, support, today).value;
            var s2 := Run(s1, ops);
            var s3 := RefundCompleted(s2, p, key).value;
            && c < |s3.wallets| && s3.wallets[c].virtualAmount == s.wallets[c].virtualAmount
            && Receivable(s3.journal, c) == Receivable(s.journal, c)
            && Balance(s3.journal, r) == Balance(s.journal, r) + StaysInRun(s1, ops, p)
            && Balance(s3.journal, c) == Balance(s.journal, c) + Sum(s2.installments, PaidUnder(p))
                 + if support.Some? then support.value.amount else 0
  {
    hide Inv, SameLines, Settle, Drew, RefundCompleted, Run, StaysInRun, RunBetween, RepaysHome;
    var c, drawn := s.txs[p].from.value, Remainder(s, p, support);
    var r := s.wallets[c].repository.value;
    GrantOf(s, c);
    SettleDraws(s, p, support, today);
    var s1 := Settle(s, p, support, today).value;
    SettleKeeps(s, p, support, today);
    RunRepays(s1, ops, p, c, r, drawn);
    var s2 := Run(s1, ops);
    RefundRestores(s2, p, key, c, r, drawn);
    SameLine(s, s1, c);
    SameLine(s2, RefundCompleted(s2, p, key).value, c);
  }
}
