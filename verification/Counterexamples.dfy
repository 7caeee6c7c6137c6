/** What the services do not guard against, caught in the act: runs of requests from a freshly installed
    system, and what the books, or the subscribers of the balance feed, say at the end. */
module Counterexamples {
  import opened Common
  import opened Sums
  import opened Ledger
  import opened Installments
  import opened Settlement
  import opened Bank
  import opened BankInvariant
  import opened MoneyMoves
  import opened CreditLines
  import opened Purchases
  import opened Repayments
  import opened Payouts
  import opened History
  import opened RoundTrip
  import opened Safety
  import opened Feed
  import opened FeedLeaks

  // ---- Runs ----

  /** Every request of the run goes through. */
  predicate GoesThrough(s: State, ops: seq<Op>) {
    |ops| > 0 ==> GoesThrough(s, ops[..|ops| - 1]) && Step(Run(s, ops[..|ops| - 1]), ops[|ops| - 1]).Ok?
  }

  lemma {:induction false} NoRun(s: State)
    ensures GoesThrough(s, []) && Run(s, []) == s
  {
  }

  lemma {:induction false} Then(s: State, ops: seq<Op>, op: Op)
    requires GoesThrough(s, ops) && Step(Run(s, ops), op).Ok?
    ensures GoesThrough(s, ops + [op]) && Run(s, ops + [op]) == Step(Run(s, ops), op).value
  {
    hide Step;
    assert (ops + [op])[..|ops|] == ops;
  }

  // ---- A repository, a shop, and a customer to be granted a line ----

  function NoTerms(): Terms {
    Terms(None, None, None, 0, 0, 0, None, None, None, None)
  }

  function OneInstallment(): Terms {
    NoTerms().(installmentCount := Some(1))
  }

  function TypeOf(code: TypeCode, terms: Terms): WalletType {
    WalletType(code, 0, true, true, true, code == Merchant, true, true, true, terms, [])
  }

  function WalletOf(code: TypeCode, user: nat, pool: int): Wallet {
    Wallet(TypeOf(code, NoTerms()), user, None, pool, false, false, None)
  }

  function LineOf(terms: Terms, ceiling: int): Wallet {
    Wallet(TypeOf(CreditLine, terms), 2, Some(0), ceiling, false, false, None)
  }

  /** A repository with a pool of 100, and a shop. */
  function Installed(): State {
    State([WalletOf(Repository, 1, 100), WalletOf(Merchant, 3, 0)], [], [], [], map[], map[],
        map[0 := TypeOf(Support, NoTerms())])
  }

  predicate Funds(j: Journal, repository: int, shop: int, line: int, owed: int) {
    Balance(j, 0) == repository && Balance(j, 1) == shop && Balance(j, 2) == line && Receivable(j, 2) == owed
  }

  /** Once the line of wallet 2 is granted: its ceiling, and the rows. */
  predicate Stands(s: State, terms: Terms, ceiling: int, txs: seq<Tx>) {
    && s.wallets == [WalletOf(Repository, 1, 0), WalletOf(Merchant, 3, 0), LineOf(terms, ceiling)] && s.txs == txs
    && s.supportTypes == map[0 := TypeOf(Support, NoTerms())]
  }

  function GrantRows(): seq<Tx> {
    [Row(Adjustment, Completed, None, Some(0), 200, Client("fund")),
        Row(Virtual, Completed, Some(0), Some(2), 100, Client("grant"))]
  }

  function Bought(status: TxStatus, amount: int): Tx {
    Row(Purchase, status, Some(2), Some(1), amount, Client("buy")).(expires := Some(0))
  }

  function DrawRows(): seq<Tx> {
    [Row(Transfer, Completed, Some(0), Some(2), 100, CreditFund(2)),
        Row(Virtual, Completed, Some(2), None, 100, CreditDraw(2))]
  }

  function Granting(terms: Terms): seq<Op> {
    [OpAdjust(0, 200, "fund")] + [OpGrant(1, 0, 2, TypeOf(CreditLine, terms), 100, "grant")]
  }

  // ---- Entries that are accepted ----

  lemma {:induction false} PostGoesThrough(s: State, tx: TxId, legs: seq<Leg>)
    requires Acceptable(legs)
    ensures Post(s, tx, legs) == Ok(s.(journal := s.journal + [Entry(tx, legs)]))
    ensures forall w: WalletId ::
        Balance(s.journal + [Entry(tx, legs)], w) == Balance(s.journal, w) + Sum(legs, BalanceIn(w))
    ensures forall w: WalletId ::
        Receivable(s.journal + [Entry(tx, legs)], w) == Receivable(s.journal, w) + Sum(legs, OwedIn(w))
  {
    AcceptsExactly(legs);
    forall w: WalletId
      ensures Balance(s.journal + [Entry(tx, legs)], w) == Balance(s.journal, w) + Sum(legs, BalanceIn(w))
      ensures Receivable(s.journal + [Entry(tx, legs)], w) == Receivable(s.journal, w) + Sum(legs, OwedIn(w))
    {
      JournalSnoc(s.journal, Entry(tx, legs), BalanceIn(w));
      JournalSnoc(s.journal, Entry(tx, legs), OwedIn(w));
    }
  }

  /** Movements in one currency that add up to the same on both sides. */
  lemma {:induction false} MultiAcceptable(debits: seq<Movement>, credits: seq<Movement>)
    requires |debits| > 0 && |credits| > 0 && debits[0].amount > 0 && credits[|credits| - 1].amount > 0
    requires forall i :: 0 <= i < |debits| ==> debits[i].holder.currency == 0 && debits[i].amount >= 0
    requires forall i :: 0 <= i < |credits| ==> credits[i].holder.currency == 0 && credits[i].amount >= 0
    requires Sum(debits, MovedAmount()) == Sum(credits, MovedAmount())
    ensures Acceptable(MultiLegs(debits, credits))
  {
    MultiEffect(debits, credits);
    FirstMovementLeg(debits, -1);
    forall c: CurrencyId ensures Sum(debits, MovedIn(c)) == Sum(credits, MovedIn(c)) {
      if c == 0 {
        SumSame(debits, debits, MovedAmount(), MovedIn(c));
        SumSame(credits, credits, MovedAmount(), MovedIn(c));
      } else {
        SumZero(debits, MovedIn(c));
        SumZero(credits, MovedIn(c));
      }
    }
  }

  // ---- Funding, granting, buying ----

  lemma {:induction false} NothingPostedYet(w: WalletId)
    ensures Receivable([], w) == 0 && Balance([], w) == 0
  {
  }

  lemma {:induction false} FundsWallet(amount: nat, s: State)
    requires |s.wallets| > 0 && s.wallets[0].typ.currency == 0 && !s.wallets[0].closed && s.txs == []
        && s.journal == [] && amount > 0
    ensures var s' := s.(txs := [Row(Adjustment, Completed, None, Some(0), amount, Client("fund"))],
                         journal := [Entry(0, Against(Own(s, 0), amount, LedgerAdjustments))]);
            && Step(s, OpAdjust(0, amount, "fund")) == Ok(s')
            && (forall w: WalletId :: Balance(s'.journal, w) == if w == 0 then amount else 0)
            && (forall w: WalletId :: Receivable(s'.journal, w) == 0)
  {
    hide Accepts, Balance, Receivable, Against;
    forall w ensures Balance([], w) == 0 && Receivable([], w) == 0 {
      NothingPostedYet(w);
    }
    var row := Row(Adjustment, Completed, None, Some(0), amount, Client("fund"));
    AgainstEffect(Own(s, 0), amount, LedgerAdjustments);
    PostGoesThrough(s.(txs := [row]), 0, Against(Own(s, 0), amount, LedgerAdjustments));
    assert s.txs + [row] == [row] && Own(s.(txs := [row]), 0) == Own(s, 0);
    var entry := Entry(0, Against(Own(s, 0), amount, LedgerAdjustments));
    assert s.journal + [entry] == [entry];
  }

  lemma {:induction false} Grants(s: State, terms: Terms)
    requires s.wallets == Installed().wallets && s.txs == [GrantRows()[0]] && s.supportTypes == Installed().supportTypes
    ensures var op := OpGrant(1, 0, 2, TypeOf(CreditLine, terms), 100, "grant");
            && Step(s, op).Ok? && Stands(Step(s, op).value, terms, 100, GrantRows())
            && Step(s, op).value.installments == s.installments && Step(s, op).value.journal == s.journal
  {
  }

  lemma {:induction false} LineGranted(terms: Terms)
    ensures GoesThrough(Installed(), Granting(terms))
    ensures var s := Run(Installed(), Granting(terms));
            Stands(s, terms, 100, GrantRows()) && s.installments == [] && Funds(s.journal, 200, 0, 0, 0)
                && Balance(s.journal, 3) == 0
  {
    hide Step, Balance, Receivable;
    var s := Installed();
    var fund, grant := OpAdjust(0, 200, "fund"), OpGrant(1, 0, 2, TypeOf(CreditLine, terms), 100, "grant");
    NoRun(s);
    FundsWallet(200, s);
    Then(s, [], fund);
    assert [] + [fund] == [fund];
    Grants(Run(s, [fund]), terms);
    Then(s, [fund], grant);
  }

  lemma {:induction false} Buys(s: State, terms: Terms, amount: int)
    requires Stands(s, terms, 100, GrantRows()) && amount > 0
    ensures var op := OpPurchase(2, 2, 1, amount, 0, "buy");
            && Step(s, op) == Ok(s.(txs := GrantRows() + [Bought(Awaiting, amount)]))
            && Stands(Step(s, op).value, terms, 100, GrantRows() + [Bought(Awaiting, amount)])
  {
  }

  // ---- Drawing on the line, and being refunded ----

  function Planned(terms: Terms, today: Today): seq<Installment> {
    PlanRows(2, 2, Schedule(100, terms, today))
  }

  lemma {:induction false} Draws(s: State, terms: Terms, today: Today)
    requires Stands(s, terms, 100, GrantRows() + [Bought(Awaiting, 100)]) && s.installments == []
        && Funds(s.journal, 200, 0, 0, 0)
    ensures Draw(s, 2, 2, 100, today).Ok?
    ensures var s1 := Draw(s, 2, 2, 100, today).value;
            && Stands(s1, terms, 0, GrantRows() + [Bought(Awaiting, 100)] + DrawRows())
                && s1.installments == Planned(terms, today)
            && Funds(s1.journal, 200, 0, 0, 100)
  {
    hide Accepts, Balance, Receivable, Schedule, ReceivableLegs;
    var h := Own(s, 2);
    ReceivableEffect(h, 100);
    PostGoesThrough(SetVirtual(s, 2, 0), 2, ReceivableLegs(h, 100));
    assert [] + Planned(terms, today) == Planned(terms, today);
  }

  lemma {:induction false} Pays(s: State, terms: Terms, today: Today)
    requires Stands(s, terms, 100, GrantRows() + [Bought(Awaiting, 100)]) && s.installments == []
        && Funds(s.journal, 200, 0, 0, 0)
    ensures var op := OpVerify(2, true, 0, today);
            && Step(s, op).Ok?
            && var s' := Step(s, op).value;
               && Stands(s', terms, 0, GrantRows() + [Bought(Completed, 100)] + DrawRows())
                   && s'.installments == Planned(terms, today)
               && Funds(s'.journal, 100, 100, 0, 100)
  {
    hide Accepts, Balance, Receivable, MultiLegs, Draw;
    Draws(s, terms, today);
    var s1 := Draw(s, 2, 2, 100, today).value;
    var debit, credit := Movement(Own(s, 0), 100), Movement(Own(s, 1), 100);
    assert FundingLegs(s, 2, 100, None) == [debit];
    OneEach(debit, credit);
    PostGoesThrough(s1, 2, MultiLegs([debit], [credit]));
    assert Settle(s, 2, None, today).Ok?;
  }

  lemma {:induction false} OneEach(debit: Movement, credit: Movement)
    requires debit.holder.currency == 0 && credit.holder.currency == 0 && debit.amount == credit.amount > 0
    ensures Acceptable(MultiLegs([debit], [credit]))
    ensures forall w :: Sum(MultiLegs([debit], [credit]), BalanceIn(w))
              == (if w == credit.holder.id then credit.amount else 0) - if w == debit.holder.id then debit.amount else 0
    ensures forall w :: Sum(MultiLegs([debit], [credit]), OwedIn(w)) == 0
  {
    SumOne(debit, MovedAmount());
    SumOne(credit, MovedAmount());
    MultiAcceptable([debit], [credit]);
    MultiEffect([debit], [credit]);
    forall w: WalletId
      ensures Sum([debit], Moved(w)) == if w == debit.holder.id then debit.amount else 0
      ensures Sum([credit], Moved(w)) == if w == credit.holder.id then credit.amount else 0
    {
      SumOne(debit, Moved(w));
      SumOne(credit, Moved(w));
    }
  }

  /** Rows of other requests, opened before the refund. */
  predicate OtherRows(more: seq<Tx>) {
    forall k :: 0 <= k < |more| ==> more[k].kind == Deposit && more[k].key == Client("repay")
  }

  /** The rows before and after the refund. */
  function BeforeRefund(more: seq<Tx>): seq<Tx> {
    GrantRows() + [Bought(Completed, 100)] + DrawRows() + more
  }

  function AfterRefund(more: seq<Tx>): seq<Tx> {
    GrantRows() + [Bought(Reversed, 100)] + DrawRows() + more
    + [Row(Transfer, Completed, Some(2), Some(0), 100, CreditFundReverse(2)),
       Row(Virtual, Completed, None, Some(2), 100, CreditDrawReverse(2)),
       RefundRow(1, 2, 100, 2, "back")]
  }

  lemma {:induction false} DrawOnRecord(s: State, terms: Terms, today: Today, more: seq<Tx>)
    requires Stands(s, terms, 0, BeforeRefund(more)) && s.installments == Planned(terms, today)
    ensures FindKey(s.txs, CreditFund(2)) == Some(3) && UnpaidDraw(s, 2) == 100 && FundingRepository(s, 2, 2) == 0
  {
    hide Schedule, FindKey;
    FindKeyIs(s.txs, CreditFund(2), 3);
    SumZero(s.installments, PaidUnder(2));
  }

  /** The draw goes back onto the ceiling; the debt goes only with a plan. */
  lemma {:induction false} Unwinds(s: State, terms: Terms, today: Today, more: seq<Tx>)
    requires Stands(s, terms, 0, BeforeRefund(more)) && s.installments == Planned(terms, today) && OtherRows(more)
    requires Funds(s.journal, 100, 100, 0, 100)
    ensures UnwindCredit(s, 2, 2, 0, 100, true).Ok?
    ensures var s1 := UnwindCredit(s, 2, 2, 0, 100, true).value;
            && Stands(s1, terms, 100, BeforeRefund(more) + AfterRefund(more)[|BeforeRefund(more)|..][..2])
            && s1.installments == CancelPlan(Planned(terms, today), 2)
            && Funds(s1.journal, 100, 100, 0, if HasPlan(Planned(terms, today), 2) then 0 else 100)
  {
    hide Accepts, Balance, Receivable, ReceivableLegs, Schedule, FindKey;
    var h := Own(s, 2);
    ReceivableEffect(h, -100);
    var s1 := ReturnDraw(s, 2, 2, 0, 100).value;
    PostGoesThrough(s1.(installments := CancelPlan(s1.installments, 2)), 2, ReceivableLegs(h, -100));
  }

  lemma {:induction false} RefundCompletes(s: State, terms: Terms, today: Today, more: seq<Tx>)
    requires Stands(s, terms, 0, BeforeRefund(more)) && s.installments == Planned(terms, today) && OtherRows(more)
    requires Funds(s.journal, 100, 100, 0, 100)
    ensures RefundCompleted(s, 2, "back").Ok?
    ensures var s' := RefundCompleted(s, 2, "back").value;
            && Stands(s', terms, 100, AfterRefund(more)) && s'.installments == CancelPlan(Planned(terms, today), 2)
            && Funds(s'.journal, 200, 0, 0, if HasPlan(Planned(terms, today), 2) then 0 else 100)
  {
    hide Accepts, Balance, Receivable, UnwindCredit, MultiLegs, Schedule, FindKey, UnpaidDraw, FundingRepository,
      HasPlan, CancelPlan;
    DrawOnRecord(s, terms, today, more);
    Unwinds(s, terms, today, more);
    var s1 := UnwindCredit(s, 2, 2, 0, 100, true).value;
    var debit, nothing, credit := Movement(Own(s, 1), 100), Movement(Own(s, 2), 0), Movement(Own(s, 0), 100);
    NothingBesides(debit, nothing, credit);
    assert [nothing] + [credit] == [nothing, credit];
    PostGoesThrough(s1, |s1.txs|, MultiLegs([debit], [nothing, credit]));
  }

  lemma {:induction false} Refunds(s: State, terms: Terms, today: Today, more: seq<Tx>)
    requires Stands(s, terms, 0, BeforeRefund(more)) && s.installments == Planned(terms, today) && OtherRows(more)
    requires Funds(s.journal, 100, 100, 0, 100)
    ensures var op := OpRefund(2, 2, "back");
            && Step(s, op).Ok?
            && var s' := Step(s, op).value;
               && Stands(s', terms, 100, AfterRefund(more)) && s'.installments == CancelPlan(Planned(terms, today), 2)
               && Funds(s'.journal, 200, 0, 0, if HasPlan(Planned(terms, today), 2) then 0 else 100)
  {
    hide RefundCompleted, Balance, Receivable, Schedule, HasPlan, CancelPlan;
    RefundCompletes(s, terms, today, more);
  }

  lemma {:induction false} NothingBesides(debit: Movement, nothing: Movement, credit: Movement)
    requires debit.holder.currency == 0 && credit.holder.currency == 0 && debit.amount == credit.amount > 0
        && nothing.amount == 0
    ensures MultiLegs([debit], [nothing, credit]) == MultiLegs([debit], [credit])
    ensures Acceptable(MultiLegs([debit], [credit]))
    ensures forall w :: Sum(MultiLegs([debit], [credit]), BalanceIn(w))
              == (if w == credit.holder.id then credit.amount else 0) - if w == debit.holder.id then debit.amount else 0
    ensures forall w :: Sum(MultiLegs([debit], [credit]), OwedIn(w)) == 0
  {
    OneEach(debit, credit);
    assert [nothing, credit][..1] == [nothing] && [nothing][..0] == [] && [credit][..0] == [];
    assert MovementLegs([nothing], 1) == [];
  }

  // ---- A type that plans no installments ----

  function PlanlessRun(today: Today): seq<Op> {
    Granting(NoTerms()) + [OpPurchase(2, 2, 1, 100, 0, "buy")] + [OpVerify(2, true, 0, today)]
        + [OpRefund(2, 2, "back")]
  }

  /** Granted, bought, paid, refunded: the draw is back on the ceiling, and the customer still owes it,
      with no installment to show for it. */
  lemma {:induction false} PlanlessDebtRemains(today: Today)
    ensures Fresh(Installed()) && GoesThrough(Installed(), PlanlessRun(today))
    ensures var s := Run(Installed(), PlanlessRun(today));
            && Receivable(s.journal, 2) == 100 && |s.wallets| == 3 && s.wallets[2].virtualAmount == 100
            && s.installments == [] && !BooksAgree(s)
  {
    hide Step, Balance, Receivable, Run, GoesThrough, Schedule;
    var s, ops := Installed(), Granting(NoTerms());
    LineGranted(NoTerms());
    Buys(Run(s, ops), NoTerms(), 100);
    Then(s, ops, OpPurchase(2, 2, 1, 100, 0, "buy"));
    ops := ops + [OpPurchase(2, 2, 1, 100, 0, "buy")];
    Pays(Run(s, ops), NoTerms(), today);
    Then(s, ops, OpVerify(2, true, 0, today));
    ops := ops + [OpVerify(2, true, 0, today)];
    assert BeforeRefund([]) == GrantRows() + [Bought(Completed, 100)] + DrawRows();
    NothingPlanned(today);
    Refunds(Run(s, ops), NoTerms(), today, []);
    Then(s, ops, OpRefund(2, 2, "back"));
    assert Sum(Run(s, PlanlessRun(today)).installments, UnpaidOn(2)) == 0;
  }

  lemma {:induction false} NothingPlanned(today: Today)
    ensures Planned(NoTerms(), today) == [] && CancelPlan(Planned(NoTerms(), today), 2) == []
  {
  }

  // ---- A repayment that is verified after the refund ----

  function PendingRepayment(): Tx {
    Row(Deposit, Awaiting, None, Some(0), 100, Client("repay")).(expires := Some(0), installment := Some(0))
  }

  lemma {:induction false} OnePlanned(today: Today)
    ensures var plan := Planned(OneInstallment(), today);
            && |plan| == 1 && plan[0].wallet == 2 && plan[0].purchase == 2 && plan[0].principal == 100
                && plan[0].fee == 0
            && plan[0].amount == 100 && plan[0].status == Pending && HasPlan(plan, 2)
  {
  }

  lemma {:induction false} AsksToRepay(s: State, today: Today)
    requires Stands(s, OneInstallment(), 0, BeforeRefund([])) && s.installments == Planned(OneInstallment(), today)
    ensures var op := OpRepay(2, 0, 0, "repay");
            && Step(s, op) == Ok(s.(txs := BeforeRefund([PendingRepayment()])))
  {
    hide Schedule;
    OnePlanned(today);
    assert BeforeRefund([]) + [PendingRepayment()] == BeforeRefund([PendingRepayment()]);
  }

  lemma {:induction false} NothingToRoute(s: State, terms: Terms, prefix: SplitPrefix)
    ensures Route(s, 0, Parts(terms, 0, 0, 0), false, prefix) == Ok(Routed(s, 0, []))
  {
    var parts := Parts(terms, 0, 0, 0);
    assert parts[..2][..1] == [parts[0]] && parts[..2][..1][..0] == [];
    assert Route(s, 0, parts[..2][..1], false, prefix) == Ok(Routed(s, 0, []));
    assert Route(s, 0, parts[..2], false, prefix) == Ok(Routed(s, 0, []));
  }

  lemma {:induction false} CashInAccepted(h: Holder, amount: nat)
    requires amount > 0
    ensures Acceptable(CashInLegs(BankCash, h.currency, amount, [Movement(h, amount)]))
    ensures forall w: WalletId :: Sum(CashInLegs(BankCash, h.currency, amount, [Movement(h, amount)]), OwedIn(w)) == 0
  {
    var m := Movement(h, amount);
    var legs := CashInLegs(BankCash, h.currency, amount, [m]);
    CashInEffect(BankCash, h.currency, amount, [m]);
    FirstMovementLeg([m], 1);
    MovementEffect([m], 1);
    forall c: CurrencyId ensures Sum(legs, SignedIn(c)) == 0 {
      SumOne(m, MovedIn(c));
    }
  }

  /** The refunded system with the repayment still pending: row 5, for a canceled installment. */
  predicate RefundedEarly(s: State, today: Today) {
    && Stands(s, OneInstallment(), 100, AfterRefund([PendingRepayment()]))
    && s.installments == CancelPlan(Planned(OneInstallment(), today), 2) && Funds(s.journal, 200, 0, 0, 0)
  }

  lemma {:induction false} CanceledRow(today: Today)
    ensures var rows := CancelPlan(Planned(OneInstallment(), today), 2);
            && |rows| == 1 && rows[0].wallet == 2 && rows[0].principal == 100 && rows[0].fee == 0
            && rows[0].amount == 100 && rows[0].status == Canceled
  {
    hide Schedule;
    OnePlanned(today);
  }

  /** The charge for an installment of 100 without fees. */
  predicate ChargesHundred(s: State, t: TxId) {
    && t < |s.txs| && s.txs[t] == PendingRepayment().(key := s.txs[t].key)
    && |s.wallets| == 3 && s.wallets[0].typ == TypeOf(Repository, NoTerms()) && !s.wallets[0].closed
    && s.wallets[2].typ.terms == OneInstallment()
    && |s.installments| == 1 && s.installments[0].wallet == 2 && s.installments[0].principal == 100
        && s.installments[0].fee == 0
    && s.installments[0].amount == 100
  }

  lemma {:induction false} ChargeIsPrincipal(s: State, t: TxId)
    requires ChargesHundred(s, t)
    ensures ChargeOf(s, t) == Ok(Charge(100, Parts(OneInstallment(), 0, 0, 0)))
  {
    var row := s.installments[0];
    assert [] + [row] == [row];
    SumSnoc([], row, PrincipalOf());
    SumSnoc([], row, FeeOf());
    SumSnoc([], row, AmountOf());
    assert RepaymentSplit([row]) == Split(100, 0, 0);
  }

  function CashIn(s: State, t: TxId): Entry
    requires |s.wallets| > 0
  {
    Entry(t, CashInLegs(BankCash, 0, 100, [Movement(Own(s, 0), 100)]))
  }

  lemma {:induction false} ChargeLands(s: State, t: TxId)
    requires ChargesHundred(s, t)
    ensures CreditRepayment(s, t, 0) == Ok(s.(journal := s.journal + [CashIn(s, t)]))
    ensures Chargeable(s, t) && Credited(s, t) == [Movement(Own(s, 0), 100)]
    ensures Receivable(s.journal + [CashIn(s, t)], 2) == Receivable(s.journal, 2)
  {
    hide ChargeOf, Route, CashInLegs, Accepts, Parts, Balance, Receivable;
    ChargeIsPrincipal(s, t);
    NothingToRoute(s, OneInstallment(), OfRepayment(t));
    var credit := Movement(Own(s, 0), 100);
    CashInAccepted(Own(s, 0), 100);
    PostGoesThrough(s, t, CashInLegs(BankCash, 0, 100, [credit]));
    assert [credit] + [] == [credit];
    assert s.txs[t := s.txs[t].(amount := 100)] == s.txs;
  }

  lemma {:induction false} RepaymentLands(s: State, today: Today)
    requires RefundedEarly(s, today)
    ensures LandRepayment(s, 5, 0).Ok?
    ensures var s1 := LandRepayment(s, 5, 0).value;
            && s1.wallets == s.wallets && s1.installments == s.installments
            && s1.txs == s.txs[5 := s.txs[5].(status := Completed)] && Receivable(s1.journal, 2) == 0
  {
    hide CreditRepayment, CashInLegs, Balance, Receivable, CancelPlan, Schedule;
    CanceledRow(today);
    ChargeLands(s, 5);
  }

  /** Settling asks for nothing but a positive principal and an unused restore key. */
  lemma {:induction false} SettlingGoesThrough(s: State, i: nat, tx: TxId)
    requires i < |s.installments| && s.installments[i].wallet < |s.wallets| && s.installments[i].principal > 0
    requires FindKey(s.txs, InstallmentRestore(i)).None?
    ensures SettleOne(s, i, tx).Ok?
    ensures var row := s.installments[i];
            Receivable(SettleOne(s, i, tx).value.journal, row.wallet)
                == Receivable(s.journal, row.wallet) - row.principal
  {
    hide ReceivableLegs, FindKey, Accepts;
    var row := s.installments[i];
    ReceivableEffect(Own(s, row.wallet), -row.principal);
    AcceptsExactly(ReceivableLegs(Own(s, row.wallet), -row.principal));
    ReceivablePosted(s.journal, tx, Own(s, row.wallet), -row.principal);
  }

  lemma {:induction false} RepaymentSettles(s: State, today: Today)
    requires RefundedEarly(s, today)
    ensures var op := OpVerify(5, true, 0, today); Step(s, op).Ok? && Receivable(Step(s, op).value.journal, 2) == -100
  {
    hide LandRepayment, SettleOne, FindKey, Receivable, Balance, CancelPlan, Schedule;
    RepaymentLands(s, today);
    CanceledRow(today);
    var s1 := LandRepayment(s, 5, 0).value;
    assert FindKey(s1.txs, InstallmentRestore(0)).None?;
    SettlingGoesThrough(s1, 0, 5);
    assert ReceiveMoney(s, 5).Ok?;
  }

  function LateRepaymentRun(today: Today): seq<Op> {
    Granting(OneInstallment()) + [OpPurchase(2, 2, 1, 100, 0, "buy")] + [OpVerify(2, true, 0, today)]
        + [OpRepay(2, 0, 0, "repay")]
    + [OpRefund(2, 2, "back")] + [OpVerify(5, true, 0, today)]
  }

  /** A repayment that is paid after the refund canceled its installment leaves the customer owing minus 100. */
  lemma {:induction false} CanceledInstallmentIsRepaid(today: Today)
    ensures Fresh(Installed()) && GoesThrough(Installed(), LateRepaymentRun(today))
    ensures var s := Run(Installed(), LateRepaymentRun(today));
            Receivable(s.journal, 2) == -100 && !BooksAgree(s)
  {
    hide Step, Balance, Receivable, Run, GoesThrough, Schedule, CancelPlan;
    var s, terms, ops := Installed(), OneInstallment(), Granting(OneInstallment());
    LineGranted(terms);
    Buys(Run(s, ops), terms, 100);
    Then(s, ops, OpPurchase(2, 2, 1, 100, 0, "buy"));
    ops := ops + [OpPurchase(2, 2, 1, 100, 0, "buy")];
    Pays(Run(s, ops), terms, today);
    Then(s, ops, OpVerify(2, true, 0, today));
    ops := ops + [OpVerify(2, true, 0, today)];
    assert BeforeRefund([]) == GrantRows() + [Bought(Completed, 100)] + DrawRows();
    AsksToRepay(Run(s, ops), today);
    Then(s, ops, OpRepay(2, 0, 0, "repay"));
    ops := ops + [OpRepay(2, 0, 0, "repay")];
    OnePlanned(today);
    Refunds(Run(s, ops), terms, today, [PendingRepayment()]);
    Then(s, ops, OpRefund(2, 2, "back"));
    ops := ops + [OpRefund(2, 2, "back")];
    RepaymentSettles(Run(s, ops), today);
    Then(s, ops, OpVerify(5, true, 0, today));
  }

  // ---- Two repayments of one installment ----

  function AskedTwice(): seq<Tx> {
    [PendingRepayment(), PendingRepayment().(key := Client("again"))]
  }

  lemma {:induction false} AsksAgain(s: State, today: Today)
    requires Stands(s, OneInstallment(), 0, BeforeRefund([PendingRepayment()]))
        && s.installments == Planned(OneInstallment(), today)
    ensures Step(s, OpRepay(2, 0, 0, "again")) == Ok(s.(txs := BeforeRefund(AskedTwice())))
  {
    hide Schedule;
    OnePlanned(today);
    assert BeforeRefund([PendingRepayment()]) + [AskedTwice()[1]] == BeforeRefund(AskedTwice());
  }

  /** Both repayments are pending. */
  predicate BothPending(s: State, today: Today) {
    && Stands(s, OneInstallment(), 0, BeforeRefund(AskedTwice())) && s.installments == Planned(OneInstallment(), today)
    && Funds(s.journal, 100, 100, 0, 100)
  }

  lemma {:induction false} FirstLands(s: State, today: Today)
    requires BothPending(s, today)
    ensures LandRepayment(s, 5, 0).Ok?
    ensures var s1 := LandRepayment(s, 5, 0).value;
            && s1 == s.(txs := s.txs[5 := s.txs[5].(status := Completed)], journal := s1.journal)
                && Balance(s1.journal, 0) == 200
            && Step(s, OpVerify(5, true, 0, today)) == MarkPaid(s1, 0, 5)
  {
    hide CreditRepayment, CashInLegs, MarkPaid, Balance, Receivable, Schedule;
    OnePlanned(today);
    ChargeLands(s, 5);
    CashOnRepository(s, 5);
  }

  lemma {:induction false} FirstMarked(s: State, i: nat, tx: TxId)
    requires i < |s.installments| && s.installments[i].wallet < |s.wallets| && s.installments[i].principal > 0
    requires FindKey(s.txs, InstallmentRestore(i)).None?
    ensures MarkPaid(s, i, tx).Ok?
    ensures var s', row := MarkPaid(s, i, tx).value, s.installments[i];
            && s' == s.(wallets := s'.wallets, txs := s.txs + [s'.txs[|s.txs|]], journal := s'.journal,
                        installments := s.installments[i := row.(status := Paid)])
            && |s'.wallets| == |s.wallets|
            && (forall w :: 0 <= w < |s.wallets| ==>
                s'.wallets[w].typ == s.wallets[w].typ && s'.wallets[w].closed == s.wallets[w].closed)
            && FindKey(s'.txs, InstallmentRestore(i)).Some? && Balance(s'.journal, 0) == Balance(s.journal, 0)
  {
    hide SettleOne, FindKey, Balance, ReceivableLegs;
    SettlingGoesThrough(s, i, tx);
    SettlementTables(s, i, tx);
    var s1 := SettleOne(s, i, tx).value;
    SettlementKeepsLine(s, s1, i, tx);
    FindKeySnoc(s.txs, s1.txs[|s.txs|], InstallmentRestore(i));
  }

  /** The first is verified: the installment is PAID, and the row that restored the ceiling is there. */
  lemma {:induction false} FirstSettles(s: State, today: Today)
    requires BothPending(s, today)
    ensures var op := OpVerify(5, true, 0, today);
            && Step(s, op).Ok?
            && var s' := Step(s, op).value;
               && |s'.txs| == 8 && s'.txs[6] == AskedTwice()[1] && ChargesHundred(s', 6)
                   && s'.installments[0].status == Paid
               && FindKey(s'.txs, InstallmentRestore(0)).Some? && Balance(s'.journal, 0) == 200
  {
    hide Step, LandRepayment, MarkPaid, FindKey, Balance, Receivable, Schedule;
    OnePlanned(today);
    FirstLands(s, today);
    var s1 := LandRepayment(s, 5, 0).value;
    NoRestoreYet(s1.txs);
    FirstMarked(s1, 0, 5);
  }

  lemma {:induction false} NoRestoreYet(txs: seq<Tx>)
    requires forall i :: 0 <= i < |txs| ==> txs[i].key != InstallmentRestore(0)
    ensures FindKey(txs, InstallmentRestore(0)).None?
  {
  }

  lemma {:induction false} CashOnRepository(s: State, t: TxId)
    requires ChargesHundred(s, t)
    ensures Balance(s.journal + [CashIn(s, t)], 0) == Balance(s.journal, 0) + 100
  {
    hide CashInLegs, Balance;
    var credits := [Movement(Own(s, 0), 100)];
    CashInEffect(BankCash, 0, 100, credits);
    EntryMoves(s.journal, CashIn(s, t), 0);
    SumOne(credits[0], Moved(0));
  }

  /** The second throws on the taken key, with its money posted. */
  lemma {:induction false} SecondThrows(s: State, today: Today)
    requires ChargesHundred(s, 6) && s.txs[6] == AskedTwice()[1] && FindKey(s.txs, InstallmentRestore(0)).Some?
        && Formed(s)
    ensures var op := OpVerify(6, true, 0, today); Step(s, op).Fail? && ThrowsLate(s, op) && Leak(s, op, 0) == 100
  {
    hide CreditRepayment, CashInLegs, SettleOne, FindKey, Balance, Formed, Credited, ReceiveStop;
    ChargeLands(s, 6);
    RepaymentLeaksExactly(s, 6);
    SumOne(Movement(Own(s, 0), 100), Moved(0));
    assert SettleBlocked(s, 0);
  }

  function RepaidTwiceRun(today: Today): seq<Op> {
    Granting(OneInstallment()) + [OpPurchase(2, 2, 1, 100, 0, "buy")] + [OpVerify(2, true, 0, today)]
        + [OpRepay(2, 0, 0, "repay")]
    + [OpRepay(2, 0, 0, "again")] + [OpVerify(5, true, 0, today)]
  }

  lemma {:induction false} FirstIsRepaid(today: Today)
    ensures GoesThrough(Installed(), RepaidTwiceRun(today))
    ensures var s := Run(Installed(), RepaidTwiceRun(today));
            && |s.txs| == 8 && s.txs[6] == AskedTwice()[1] && ChargesHundred(s, 6) && s.installments[0].status == Paid
            && FindKey(s.txs, InstallmentRestore(0)).Some? && Balance(s.journal, 0) == 200
  {
    hide Step, Balance, Receivable, Run, GoesThrough, Schedule, FindKey;
    var s, terms, ops := Installed(), OneInstallment(), Granting(OneInstallment());
    LineGranted(terms);
    Buys(Run(s, ops), terms, 100);
    Then(s, ops, OpPurchase(2, 2, 1, 100, 0, "buy"));
    ops := ops + [OpPurchase(2, 2, 1, 100, 0, "buy")];
    Pays(Run(s, ops), terms, today);
    Then(s, ops, OpVerify(2, true, 0, today));
    ops := ops + [OpVerify(2, true, 0, today)];
    assert BeforeRefund([]) == GrantRows() + [Bought(Completed, 100)] + DrawRows();
    AsksToRepay(Run(s, ops), today);
    Then(s, ops, OpRepay(2, 0, 0, "repay"));
    ops := ops + [OpRepay(2, 0, 0, "repay")];
    AsksAgain(Run(s, ops), today);
    Then(s, ops, OpRepay(2, 0, 0, "again"));
    ops := ops + [OpRepay(2, 0, 0, "again")];
    FirstSettles(Run(s, ops), today);
    Then(s, ops, OpVerify(5, true, 0, today));
  }

  lemma {:induction false} NothingLeaks(s: State, ops: seq<Op>, w: WalletId)
    requires GoesThrough(s, ops)
    ensures LeakOver(s, ops, w) == 0
  {
    hide Step;
    if |ops| > 0 {
      NothingLeaks(s, ops[..|ops| - 1], w);
    }
  }

  /** Both repayments are paid and verified. The second verification throws and is rolled back, but the money it
      had posted stays on the feed: a subscriber sees 300 on a repository that has 200. */
  lemma {:induction false} SecondRepaymentStaysOnFeed(today: Today)
    ensures Fresh(Installed()) && Step(Run(Installed(), RepaidTwiceRun(today)), OpVerify(6, true, 0, today)).Fail?
    ensures var ops := RepaidTwiceRun(today) + [OpVerify(6, true, 0, today)];
            && Balance(Run(Installed(), ops).journal, 0) == 200
            && Sum(Emitted(Installed(), ops), DeltaFor(0)) == 300
  {
    hide Step, Balance, Run, LeakOver, Emitted, FindKey, RepaidTwiceRun;
    var s, ops, op := Installed(), RepaidTwiceRun(today), OpVerify(6, true, 0, today);
    FirstIsRepaid(today);
    FreshIsSound(s);
    InvFormed(s);
    FeedIsOffByLeaks(s, ops, 0);
    SecondThrows(Run(s, ops), today);
    NothingLeaks(s, ops, 0);
    FeedIsOffByLeaks(s, ops + [op], 0);
    OneMore(s, ops, op);
    NothingPostedYet(0);
  }

  lemma {:induction false} OneMore(s: State, ops: seq<Op>, op: Op)
    ensures Run(s, ops + [op]) == Next(Run(s, ops), op)
    ensures LeakOver(s, ops + [op], 0) == LeakOver(s, ops, 0) + Leak(Run(s, ops), op, 0)
  {
    hide Next, Leak;
    assert (ops + [op])[..|ops|] == ops;
  }

  // ---- A top-up that is verified after its purchase was canceled ----

  function AskedFor(txs: seq<Tx>): Tx {
    Row(Deposit, Awaiting, None, None, 50, SupportTopUp(2, Attempts(txs, 2))).(expires := Some(0), completes := Some(2))
  }

  /** A purchase of 150 on a line of 100, and the top-up for the rest of it. */
  function AskedRows(status: TxStatus): seq<Tx> {
    var txs := GrantRows() + [Bought(Awaiting, 150)];
    GrantRows() + [Bought(status, 150)] + [AskedFor(txs)]
  }

  lemma {:induction false} AsksForTopUp(s: State, terms: Terms)
    requires Stands(s, terms, 100, GrantRows() + [Bought(Awaiting, 150)])
    ensures Step(s, OpTopUp(2, 50, 0)) == Ok(s.(txs := AskedRows(Awaiting)))
  {
    hide Attempts, FindKey;
    assert s.txs[2 := s.txs[2].(expires := Some(0))] == s.txs;
  }

  lemma {:induction false} CancelsPending(s: State, terms: Terms)
    requires Stands(s, terms, 100, AskedRows(Awaiting))
    ensures Step(s, OpRefund(2, 2, "back")) == Ok(s.(txs := AskedRows(Reversed)))
  {
    hide Attempts;
    assert s.txs[2 := s.txs[2].(status := Reversed)] == AskedRows(Reversed);
  }

  lemma {:induction false} TopUpLands(s: State, terms: Terms)
    requires Stands(s, terms, 100, AskedRows(Reversed)) && Funds(s.journal, 200, 0, 0, 0) && Balance(s.journal, 3) == 0
    ensures LandTopUp(s, 3, 2, 0).Ok?
    ensures var (s1, support) := LandTopUp(s, 3, 2, 0).value;
            && support == 3 && s1.wallets == s.wallets + [WalletOf(Support, 2, 0)] && s1.installments == s.installments
            && s1.txs == s.txs[3 := s.txs[3].(to := Some(3), status := Completed)]
            && Funds(s1.journal, 200, 0, 0, 0) && Balance(s1.journal, 3) == 50
  {
    hide Accepts, Balance, Receivable, Against, Attempts;
    assert FindSupport(s.wallets, 2, 0).None?;
    var h := Holder(3, Support, 0);
    AgainstEffect(h, 50, BankCash);
    var s1 := SupportWalletFor(s, 2, 0).value.0;
    PostGoesThrough(s1.(txs := s1.txs[3 := s1.txs[3].(to := Some(3), status := Completed)]), 3,
        Against(h, 50, BankCash));
  }

  /** The settlement that the top-up brings: half from the support wallet's money, the rest drawn on the line. */
  lemma {:induction false} TopUpDraws(s1: State, today: Today)
    requires |s1.wallets| == 4 && s1.wallets[0] == WalletOf(Repository, 1, 0)
        && s1.wallets[2] == LineOf(OneInstallment(), 100)
    requires |s1.txs| == 4 && s1.txs[2] == Bought(Reversed, 150) && s1.installments == []
    requires forall k :: 0 <= k < |s1.txs| ==>
        !s1.txs[k].key.CreditFund? && !s1.txs[k].key.CreditDraw? && !s1.txs[k].key.SupportFund?
    requires Funds(s1.journal, 200, 0, 0, 0) && Balance(s1.journal, 3) == 50
    ensures FundPurchase(s1, 2, Some(Funding(3, 50)), today).Ok?
    ensures var s2 := FundPurchase(s1, 2, Some(Funding(3, 50)), today).value;
            Balance(s2.journal, 0) == 200 && Balance(s2.journal, 1) == 0 && Balance(s2.journal, 2) == 0
  {
    hide Accepts, Balance, Receivable, ReceivableLegs, FindKey, Schedule, HasPlan;
    var paid := s1.(txs := s1.txs + [SupportRow(2, 2, Funding(3, 50))]);
    assert FundFromSupport(s1, 2, 2, Funding(3, 50)) == Ok(paid);
    ReceivableEffect(Own(s1, 2), 100);
    PostGoesThrough(SetVirtual(paid, 2, 0), 2, ReceivableLegs(Own(s1, 2), 100));
    assert Draw(paid, 2, 2, 100, today).Ok?;
  }

  lemma {:induction false} TwoPayers(a: Movement, b: Movement, credit: Movement)
    requires a.holder.currency == 0 && b.holder.currency == 0 && credit.holder.currency == 0
    requires a.amount > 0 && b.amount > 0 && credit.amount == a.amount + b.amount
    ensures Acceptable(MultiLegs([a, b], [credit]))
  {
    SumPair(a, b, MovedAmount());
    SumOne(credit, MovedAmount());
    MultiAcceptable([a, b], [credit]);
  }

  lemma {:induction false} TopUpSettlesPurchase(s1: State, today: Today)
    requires |s1.wallets| == 4 && s1.wallets[0] == WalletOf(Repository, 1, 0)
        && s1.wallets[1] == WalletOf(Merchant, 3, 0)
    requires s1.wallets[2] == LineOf(OneInstallment(), 100) && s1.wallets[3] == WalletOf(Support, 2, 0)
    requires |s1.txs| == 4 && s1.txs[2] == Bought(Reversed, 150) && s1.installments == []
    requires forall k :: 0 <= k < |s1.txs| ==>
        !s1.txs[k].key.CreditFund? && !s1.txs[k].key.CreditDraw? && !s1.txs[k].key.SupportFund?
    requires Funds(s1.journal, 200, 0, 0, 0) && Balance(s1.journal, 3) == 50
    ensures Settle(s1, 2, Some(Funding(3, 50)), today).Ok?
    ensures var s' := Settle(s1, 2, Some(Funding(3, 50)), today).value; |s'.txs| > 2 && s'.txs[2].status == Completed
  {
    hide Accepts, Balance, Receivable, MultiLegs, FundPurchase;
    TopUpDraws(s1, today);
    var a, b, credit := Movement(Own(s1, 3), 50), Movement(Own(s1, 0), 100), Movement(Own(s1, 1), 150);
    assert [a] + [b] == [a, b];
    TwoPayers(a, b, credit);
    PostGoesThrough(FundPurchase(s1, 2, Some(Funding(3, 50)), today).value, 2, MultiLegs([a, b], [credit]));
  }

  lemma {:induction false} LateTopUpCompletes(s: State, today: Today)
    requires Stands(s, OneInstallment(), 100, AskedRows(Reversed)) && s.installments == []
    requires Funds(s.journal, 200, 0, 0, 0) && Balance(s.journal, 3) == 0
    ensures var op := OpVerify(3, true, 0, today);
            && Step(s, op).Ok? && |Step(s, op).value.txs| > 2 && Step(s, op).value.txs[2].status == Completed
  {
    hide LandTopUp, Settle, Balance, Receivable, Attempts;
    TopUpLands(s, OneInstallment());
    TopUpSettlesPurchase(LandTopUp(s, 3, 2, 0).value.0, today);
  }

  function LateTopUpRun(): seq<Op> {
    Granting(OneInstallment()) + [OpPurchase(2, 2, 1, 150, 0, "buy")] + [OpTopUp(2, 50, 0)] + [OpRefund(2, 2, "back")]
  }

  /** A customer who cancels a purchase and pays the top-up for it all the same gets the purchase completed. */
  lemma {:induction false} CanceledPurchaseIsCompleted(today: Today)
    ensures Fresh(Installed()) && GoesThrough(Installed(), LateTopUpRun() + [OpVerify(3, true, 0, today)])
    ensures var s, s' := Run(Installed(), LateTopUpRun()),
        Run(Installed(), LateTopUpRun() + [OpVerify(3, true, 0, today)]);
            && |s.txs| > 2 && |s'.txs| > 2 && IsPurchase(s.txs[2]) && s.txs[2].status == Reversed
                && s'.txs[2].status == Completed
  {
    hide Step, Balance, Receivable, Run, GoesThrough, Attempts;
    var s, terms, ops := Installed(), OneInstallment(), Granting(OneInstallment());
    LineGranted(terms);
    Buys(Run(s, ops), terms, 150);
    Then(s, ops, OpPurchase(2, 2, 1, 150, 0, "buy"));
    ops := ops + [OpPurchase(2, 2, 1, 150, 0, "buy")];
    AsksForTopUp(Run(s, ops), terms);
    Then(s, ops, OpTopUp(2, 50, 0));
    ops := ops + [OpTopUp(2, 50, 0)];
    CancelsPending(Run(s, ops), terms);
    Then(s, ops, OpRefund(2, 2, "back"));
    ops := ops + [OpRefund(2, 2, "back")];
    LateTopUpCompletes(Run(s, ops), today);
    Then(s, ops, OpVerify(3, true, 0, today));
  }

  // ---- A split that overshoots ----

  /** A customer with money of her own, and a shop. */
  function Opened(): State {
    State([WalletOf(Buy, 2, 0), WalletOf(Merchant, 3, 0)], [], [], [], map[], map[], map[])
  }

  function Charged(status: TxStatus, from: Option<WalletId>): Tx {
    Row(Purchase, status, from, Some(1), 1_000_000, Client("charge")).(expires := Some(0))
  }

  function ChargeRows(status: TxStatus, from: Option<WalletId>): seq<Tx> {
    [Row(Adjustment, Completed, None, Some(0), 1_000_000, Client("fund")), Charged(status, from)]
  }

  predicate Overshoots(s: State, txs: seq<Tx>) {
    && s.wallets == Opened().wallets && s.txs == txs && s.installments == [] && s.defaults == map[]
    && s.overrides == map[1 := StoredRows(OVERSHOOTING)]
  }

  lemma {:induction false} ChargeOpens(s: State)
    requires s.wallets == Opened().wallets && s.txs == [ChargeRows(Awaiting, None)[0]] && s.installments == []
    requires s.defaults == map[] && s.overrides == map[]
    ensures var op := OpCharge(1, 1_000_000, Some(OVERSHOOTING), 0, "charge");
            && Step(s, op).Ok? && Overshoots(Step(s, op).value, ChargeRows(Awaiting, None))
                && Step(s, op).value.journal == s.journal
  {
    hide ValidChargeOverrides, StoredRows;
    AcceptedSplitCanGoNegative();
  }

  lemma {:induction false} CustomerAttaches(s: State)
    requires Overshoots(s, ChargeRows(Awaiting, None))
    ensures Step(s, OpAttach(1, 2, 0)) == Ok(s.(txs := ChargeRows(Awaiting, Some(0))))
  {
    hide StoredRows;
    assert s.txs[1 := s.txs[1].(from := Some(0))] == ChargeRows(Awaiting, Some(0));
  }

  lemma {:induction false} ChargeIsPaid(s: State, today: Today)
    requires Overshoots(s, ChargeRows(Awaiting, Some(0))) && Balance(s.journal, 0) == 1_000_000
        && Balance(s.journal, 1) == 0
    ensures var op := OpVerify(1, true, 0, today);
            && Step(s, op).Ok? && Overshoots(Step(s, op).value, ChargeRows(Completed, Some(0)))
            && Balance(Step(s, op).value.journal, 1) == 1_000_000
  {
    hide Accepts, Balance, Receivable, MultiLegs, StoredRows;
    var debit, credit := Movement(Own(s, 0), 1_000_000), Movement(Own(s, 1), 1_000_000);
    assert FundingLegs(s, 0, 1_000_000, None) == [debit];
    OneEach(debit, credit);
    PostGoesThrough(s, 1, MultiLegs([debit], [credit]));
    assert Settle(s, 1, None, today).Ok?;
  }

  function Shop(): Payer {
    Payer(1, None, None, None, 0, {})
  }

  lemma {:induction false} PaysSlice(s: State, amount: int, index: nat)
    requires |s.wallets| == 2 && amount > 0 && FindKey(s.txs, SweepSlice(1, 1, index, 0)).None?
    ensures PayOut(s, Shop(), amount, SweepSlice(1, 1, index, 0), Some(1)).Ok?
    ensures var s' := PayOut(s, Shop(), amount, SweepSlice(1, 1, index, 0), Some(1)).value;
            && s'.wallets == s.wallets && Balance(s'.journal, 1) == Balance(s.journal, 1) - amount
            && |s'.txs| == |s.txs| + 1 && s'.txs[..|s.txs|] == s.txs
                && s'.txs[|s.txs|].key == SweepSlice(1, 1, index, 0)
  {
    hide Accepts, Balance, Receivable, FindKey, Against;
    AgainstEffect(Own(s, 1), -amount, BankCash);
    PostGoesThrough(s, |s.txs|, Against(Own(s, 1), -amount, BankCash));
  }

  lemma {:induction false} SlicesArePaid(s: State)
    requires |s.wallets| == 2 && Balance(s.journal, 1) == 1_000_000 && s.txs == ChargeRows(Completed, Some(0))
    ensures PaySlices(s, Shop(), 1, [1_000_000, 50, -50]).Ok?
    ensures var s' := PaySlices(s, Shop(), 1, [1_000_000, 50, -50]).value;
            Balance(s'.journal, 1) == -50 && 1 < |s'.txs|
  {
    hide Balance, PayOut, FindKey;
    var slices := [1_000_000, 50, -50];
    assert slices[..2][..1] == [1_000_000] && [1_000_000][..0] == [] && slices[..2] == [1_000_000, 50];
    assert PaySlices(s, Shop(), 1, []) == Ok(s);
    PaysSlice(s, 1_000_000, 0);
    var s1 := PaySlices(s, Shop(), 1, [1_000_000]).value;
    assert forall k :: 0 <= k < 2 ==> s1.txs[..2][k] == s1.txs[k];
    assert FindKey(s1.txs, SweepSlice(1, 1, 1, 0)).None?;
    PaysSlice(s1, 50, 1);
    NothingIsPaid(PaySlices(s, Shop(), 1, [1_000_000, 50]).value);
  }

  lemma {:induction false} NothingIsPaid(s: State)
    requires |s.wallets| == 2
    ensures PayOut(s, Shop(), -50, SweepSlice(1, 1, 2, 0), Some(1)) == Ok(s)
  {
  }

  lemma {:induction false} SlicesTotal()
    ensures Sum([1_000_000, 50, -50], Identity()) == 1_000_000
  {
    SumPair(1_000_000, 50, Identity());
    SumSnoc([1_000_000, 50], -50, Identity());
    assert [1_000_000, 50] + [-50] == [1_000_000, 50, -50];
  }

  lemma {:induction false} ChargeIsSwept(s: State)
    requires Overshoots(s, ChargeRows(Completed, Some(0))) && Balance(s.journal, 1) == 1_000_000
    ensures SweepPurchases(s, Shop(), 2, 1_000_000).Ok?
    ensures Balance(SweepPurchases(s, Shop(), 2, 1_000_000).value.state.journal, 1) == -50
  {
    hide Balance, PaySlices, StoredRows;
    AcceptedSplitCanGoNegative();
    SlicesArePaid(s);
    SlicesTotal();
    assert SlicesOf(s, 1, 1) == [1_000_000, 50, -50];
    assert SweepPurchases(s, Shop(), 0, 1_000_000) == Ok(Swept(s, 1_000_000));
    assert SweepPurchases(s, Shop(), 1, 1_000_000) == Ok(Swept(s, 1_000_000));
  }

  lemma {:induction false} SweepGoesThrough(s: State)
    requires Overshoots(s, ChargeRows(Completed, Some(0))) && Balance(s.journal, 1) == 1_000_000
    ensures Step(s, OpSweep(1, 0, {})).Ok? && Balance(Step(s, OpSweep(1, 0, {})).value.journal, 1) == -50
  {
    hide Balance, SweepPurchases, StoredRows;
    ChargeIsSwept(s);
    assert SplitMode(s, 1) by {
      assert Unsettled(s.txs[1], 1) && 1 in s.overrides;
    }
  }

  function OvershootingRun(today: Today): seq<Op> {
    [OpAdjust(0, 1_000_000, "fund")] + [OpCharge(1, 1_000_000, Some(OVERSHOOTING), 0, "charge")] + [OpAttach(1, 2, 0)]
    + [OpVerify(1, true, 0, today)] + [OpSweep(1, 0, {})]
  }

  /** A charge split into 100%, 0.005% and 0.001%, paid and swept: the shop is paid out more than it had. */
  lemma {:induction false} OvershootingSweepOverdraws(today: Today)
    ensures Fresh(Opened()) && GoesThrough(Opened(), OvershootingRun(today))
    ensures var s := Run(Opened(), OvershootingRun(today));
            Balance(s.journal, 1) == -50 && !BooksAgree(s)
  {
    hide Step, Balance, Receivable, Run, GoesThrough;
    var s := Opened();
    NoRun(s);
    FundsWallet(1_000_000, s);
    Then(s, [], OpAdjust(0, 1_000_000, "fund"));
    var ops := [OpAdjust(0, 1_000_000, "fund")];
    assert [] + ops == ops;
    ChargeOpens(Run(s, ops));
    Then(s, ops, OpCharge(1, 1_000_000, Some(OVERSHOOTING), 0, "charge"));
    ops := ops + [OpCharge(1, 1_000_000, Some(OVERSHOOTING), 0, "charge")];
    CustomerAttaches(Run(s, ops));
    Then(s, ops, OpAttach(1, 2, 0));
    ops := ops + [OpAttach(1, 2, 0)];
    ChargeIsPaid(Run(s, ops), today);
    Then(s, ops, OpVerify(1, true, 0, today));
    ops := ops + [OpVerify(1, true, 0, today)];
    SweepGoesThrough(Run(s, ops));
    Then(s, ops, OpSweep(1, 0, {}));
  }
}
