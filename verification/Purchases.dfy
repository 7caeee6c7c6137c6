/** Completing a purchase, with or without a top-up, and refunding it. */
module Purchases {
  import opened Common
  import opened Sums
  import opened Ledger
  import opened Installments
  import opened Settlement
  import opened Bank
  import opened BankInvariant
  import opened CreditLines
  import opened MoneyMoves

  // ---- Several wallets in one entry ----

  predicate Held(ws: seq<Wallet>, ms: seq<Movement>) {
    forall i :: 0 <= i < |ms| ==> ms[i].holder.id < |ws| && ms[i].holder == HoldersOf(ws)[ms[i].holder.id]
  }

  lemma {:induction false} MovementsFiled(ws: seq<Wallet>, ms: seq<Movement>, sign: int)
    requires Held(ws, ms)
    ensures forall k :: 0 <= k < |MovementLegs(ms, sign)| ==> Filed(HoldersOf(ws), MovementLegs(ms, sign)[k])
  {
    if |ms| > 0 {
      MovementsFiled(ws, ms[..|ms| - 1], sign);
    }
  }

  lemma {:induction false} MovedNonNegative(ms: seq<Movement>)
    ensures forall w: WalletId :: Sum(ms, Moved(w)) >= 0
  {
    forall w: WalletId ensures Sum(ms, Moved(w)) >= 0 {
      SumNonNegative(ms, Moved(w));
    }
  }

  /** Money between wallets, as long as nobody pays more than it has. */
  lemma {:induction false} MultiStep(s: State, tx: TxId, debits: seq<Movement>, credits: seq<Movement>)
    requires MoneyOk(s.wallets, s.journal) && Held(s.wallets, debits) && Held(s.wallets, credits)
    requires Post(s, tx, MultiLegs(debits, credits)).Ok?
    requires forall w: WalletId :: Balance(s.journal, w) >= Sum(debits, Moved(w))
    ensures var s' := Post(s, tx, MultiLegs(debits, credits)).value;
            && MoneyStep(s, s')
            && forall w: WalletId :: Balance(s'.journal, w)
                 == Balance(s.journal, w) + Sum(credits, Moved(w)) - Sum(debits, Moved(w))
  {
    MultiEffect(debits, credits);
    MovedNonNegative(credits);
    MovementsFiled(s.wallets, debits, -1);
    MovementsFiled(s.wallets, credits, 1);
    PostStep(s, tx, MultiLegs(debits, credits));
  }

  lemma {:induction false} SumOne(m: Movement, f: Movement -> int)
    ensures Sum([m], f) == f(m)
  {
    SumSnoc([], m, f);
    assert [] + [m] == [m];
  }

  // ---- Settling a purchase ----

  function SupportRow(p: TxId, from: WalletId, support: Funding): Tx {
    Row(Transfer, Completed, Some(support.wallet), Some(from), support.amount, SupportFund(p))
  }

  /** Both sides are known and what is to be paid is positive. */
  predicate Payable(s: State, p: TxId, support: Option<Funding>) {
    && p < |s.txs| && s.txs[p].from.Some? && s.txs[p].to.Some?
    && s.txs[p].from.value < |s.wallets| && s.txs[p].to.value < |s.wallets| && s.txs[p].amount > 0
    && (support.Some? ==> support.value.wallet < |s.wallets| && support.value.amount > 0
                          && s.wallets[support.value.wallet].typ.code == Support)
  }

  predicate Ready(s: State, p: TxId, support: Option<Funding>) {
    Payable(s, p, support) && IsPurchase(s.txs[p]) && s.txs[p].status != Completed
  }

  /** After the top-up's slice is recorded. */
  function Funded(s: State, p: TxId, support: Option<Funding>): State
    requires Payable(s, p, support)
  {
    if support.None? then s else s.(txs := s.txs + [SupportRow(p, s.txs[p].from.value, support.value)])
  }

  function Remainder(s: State, p: TxId, support: Option<Funding>): int
    requires p < |s.txs|
  {
    s.txs[p].amount - if support.Some? then support.value.amount else 0
  }

  ghost predicate IsFunding(s: State, s2: State, p: TxId, support: Option<Funding>, today: Date)
    requires Ready(s, p, support)
  {
    var from, rest := s.txs[p].from.value, Remainder(s, p, support);
    var s1 := Funded(s, p, support);
    && (support.Some? ==> Balance(s.journal, support.value.wallet) >= support.value.amount)
    && if DrawsOnLine(s, from, rest) then IsDraw(s1, s2, p, from, rest, today) else s2 == s1
  }

  function PurchaseLegs(s: State, p: TxId, support: Option<Funding>): seq<Leg>
    requires Payable(s, p, support) && BackingExists(s, s.txs[p].from.value)
  {
    MultiLegs(FundingLegs(s, s.txs[p].from.value, s.txs[p].amount, support),
              [Movement(Own(s, s.txs[p].to.value), s.txs[p].amount)])
  }

  /** A draw on a line whose type plans no installments. */
  predicate DrawsUnplanned(s: State, from: WalletId, amount: int)
    requires from < |s.wallets|
  {
    DrawsOnLine(s, from, amount) && !PlansInstallments(s.wallets[from].typ.terms)
  }

  predicate BackingExists(s: State, w: WalletId)
    requires w < |s.wallets|
  {
    s.wallets[w].repository.Some? ==> s.wallets[w].repository.value < |s.wallets|
  }

  /** The steps of a settlement, in order. */
  lemma {:induction false} SettleUnfolds(s: State, p: TxId, support: Option<Funding>, today: Date) returns (s2: State)
    requires Payable(s, p, support) && OnCalendar(today) && Settle(s, p, support, today).Ok?
    ensures BackingExists(s, s.txs[p].from.value) && FundPurchase(s, p, support, today) == Ok(s2)
    ensures p < |s2.txs| && Post(s2, p, PurchaseLegs(s, p, support)).Ok?
    ensures Settle(s, p, support, today) == Ok(SetStatus(Post(s2, p, PurchaseLegs(s, p, support)).value, p, Completed))
    ensures support.None? && !DrawsOnLine(s, s.txs[p].from.value, s.txs[p].amount) ==>
              Balance(s2.journal, s.txs[p].from.value) >= s.txs[p].amount
  {
    s2 := FundPurchase(s, p, support, today).value;
  }

  lemma {:induction false} PlansStayDrawn(txs: seq<Tx>, installments: seq<Installment>, t: Tx)
    requires PlansDrawn(txs, installments)
    ensures PlansDrawn(txs + [t], installments)
  {
    forall i | 0 <= i < |installments| ensures FindKey(txs + [t], CreditFund(installments[i].purchase)).Some? {
      FindKeySnoc(txs, t, CreditFund(installments[i].purchase));
    }
  }

  lemma {:induction false} FundingTables(s: State, s2: State, p: TxId, support: Option<Funding>, today: Date)
    requires PlansDrawn(s.txs, s.installments) && Ready(s, p, support) && OnCalendar(today)
    requires FundPurchase(s, p, support, today) == Ok(s2)
    ensures IsFunding(s, s2, p, support, today)
  {
    var from, rest := s.txs[p].from.value, Remainder(s, p, support);
    if support.Some? {
      assert FundFromSupport(s, p, from, support.value) == Ok(Funded(s, p, support));
      PlansStayDrawn(s.txs, s.installments, SupportRow(p, from, support.value));
    }
    if DrawsOnLine(s, from, rest) {
      NoPlanUndrawn(Funded(s, p, support), p, from, rest, today);
      DrawTables(Funded(s, p, support), p, from, rest, today);
    }
  }

  /** The order of a draw and the purchase's change of status does not matter. */
  lemma {:induction false} DrawUnderStatus(s: State, s2: State, p: TxId, from: WalletId, amount: int, today: Date,
      status: TxStatus)
    requires p < |s.txs| && IsDraw(s, s2, p, from, amount, today)
    ensures p < |s2.txs| && IsDraw(SetStatus(s, p, status), SetStatus(s2, p, status), p, from, amount, today)
  {
    FindKeyUpdate(s.txs, p, s.txs[p].(status := status), CreditFund(p));
    var more := [FundRow(s, p, from, amount), DrawRow(p, from, amount)];
    assert SetStatus(s2, p, status).txs == SetStatus(s, p, status).txs + more;
  }

  lemma {:induction false} CompletedRowKeeps(s: State, p: TxId, support: Option<Funding>)
    requires Inv(s) && Ready(s, p, support)
    ensures Inv(SetStatus(Funded(s, p, support), p, Completed))
  {
    assert RowOk(|s.wallets|, |s.installments|, s.txs, p);
    ReplaceKeeps(s, p, s.txs[p].(status := Completed));
    if support.Some? {
      var row := SupportRow(p, s.txs[p].from.value, support.value);
      InsertKeeps(SetStatus(s, p, Completed), row);
      assert SetStatus(s, p, Completed).txs + [row] == SetStatus(Funded(s, p, support), p, Completed).txs;
    }
  }

  lemma {:induction false} CompletedDrawKeeps(s: State, s2: State, p: TxId, from: WalletId, amount: int, today: Date)
    requires p < |s.txs| && Inv(SetStatus(s, p, Completed)) && IsDraw(s, s2, p, from, amount, today)
    requires IsPurchase(s.txs[p]) && s.txs[p].from == Some(from) && PlansInstallments(s.wallets[from].typ.terms)
    ensures p < |s2.txs| && Kept(SetStatus(s, p, Completed), SetStatus(s2, p, Completed))
  {
    hide Inv, SameLines, IsDraw;
    DrawUnderStatus(s, s2, p, from, amount, today, Completed);
    DrawnStateKeeps(SetStatus(s, p, Completed), SetStatus(s2, p, Completed), p, from, amount, today);
  }

  lemma {:induction false} CompletedFundingKeeps(s: State, s2: State, p: TxId, support: Option<Funding>, today: Date)
    requires Inv(s) && Ready(s, p, support) && IsFunding(s, s2, p, support, today)
    requires !DrawsUnplanned(s, s.txs[p].from.value, Remainder(s, p, support))
    ensures p < |s2.txs| && Kept(s, SetStatus(s2, p, Completed))
  {
    hide Inv, SameLines, IsDraw;
    CompletedRowKeeps(s, p, support);
    var s1 := Funded(s, p, support);
    LinesByMoney(s, SetStatus(s1, p, Completed));
    var from, rest := s.txs[p].from.value, Remainder(s, p, support);
    if DrawsOnLine(s, from, rest) {
      CompletedDrawKeeps(s1, s2, p, from, rest, today);
      LinesThrough(s, SetStatus(s1, p, Completed), SetStatus(s2, p, Completed));
    }
  }

  lemma {:induction false} DrawMovesNoBalance(s: State, s2: State, p: TxId, from: WalletId, amount: int, today: Date)
    requires IsDraw(s, s2, p, from, amount, today)
    ensures forall w: WalletId :: Balance(s2.journal, w) == Balance(s.journal, w)
  {
    ReceivablePosted(s.journal, p, Own(s, from), amount);
  }

  /** What each wallet puts into a purchase. */
  function PaidIn(s: State, p: TxId, support: Option<Funding>, w: WalletId): int
    requires Payable(s, p, support)
  {
    var from, rest := s.txs[p].from.value, Remainder(s, p, support);
    (if support.Some? && support.value.wallet == w then support.value.amount else 0)
    + (if DrawsOnLine(s, from, rest) && s.wallets[from].repository == Some(w) then rest else 0)
    + (if support.None? && !DrawsOnLine(s, from, rest) && from == w then s.txs[p].amount else 0)
  }

  lemma {:induction false} FundingWeighs(s: State, p: TxId, support: Option<Funding>)
    requires LinksOk(s.wallets) && Payable(s, p, support) && BackingExists(s, s.txs[p].from.value)
    ensures var debits := FundingLegs(s, s.txs[p].from.value, s.txs[p].amount, support);
            && Held(s.wallets, debits)
            && forall w: WalletId :: Sum(debits, Moved(w)) == PaidIn(s, p, support, w)
  {
    var from, rest := s.txs[p].from.value, Remainder(s, p, support);
    var debits := FundingLegs(s, from, s.txs[p].amount, support);
    assert Linked(s.wallets, from);
    forall w: WalletId ensures Sum(debits, Moved(w)) == PaidIn(s, p, support, w) {
      if |debits| == 1 {
        SumOne(debits[0], Moved(w));
        assert debits == [debits[0]];
      } else {
        SumPair(debits[0], debits[1], Moved(w));
        assert debits == [debits[0], debits[1]];
      }
    }
  }

  lemma {:induction false} FundingCovered(s: State, s2: State, p: TxId, support: Option<Funding>, today: Date)
    requires WalletsOk(s.wallets) && MoneyOk(s.wallets, s.journal)
    requires Ready(s, p, support) && IsFunding(s, s2, p, support, today)
    requires support.None? && !DrawsOnLine(s, s.txs[p].from.value, s.txs[p].amount) ==>
               Balance(s2.journal, s.txs[p].from.value) >= s.txs[p].amount
    ensures forall w: WalletId :: Balance(s2.journal, w) == Balance(s.journal, w) >= PaidIn(s, p, support, w)
    ensures HoldersOf(s2.wallets) == HoldersOf(s.wallets)
  {
    hide FindKey, HasPlan, ReceivableLegs, Schedule, PlanRows, FiledJournal, Balanced;
    var from := s.txs[p].from.value;
    if DrawsOnLine(s, from, Remainder(s, p, support)) {
      DrawMovesNoBalance(Funded(s, p, support), s2, p, from, Remainder(s, p, support), today);
    }
    assert LinkOk(s.wallets, from);
  }

  /** What the entry of a purchase does to the balances, given that everyone can pay its part. */
  lemma {:induction false} PurchasePosted(s: State, s2: State, p: TxId, support: Option<Funding>)
    requires LinksOk(s.wallets) && MoneyOk(s2.wallets, s2.journal) && Payable(s, p, support)
    requires BackingExists(s, s.txs[p].from.value) && HoldersOf(s2.wallets) == HoldersOf(s.wallets)
    requires Post(s2, p, PurchaseLegs(s, p, support)).Ok?
    requires forall w: WalletId :: Balance(s2.journal, w) >= PaidIn(s, p, support, w)
    ensures var s3 := Post(s2, p, PurchaseLegs(s, p, support)).value;
            && MoneyStep(s2, s3)
            && forall w: WalletId :: Balance(s3.journal, w) == Balance(s2.journal, w) - PaidIn(s, p, support, w)
                 + if s.txs[p].to == Some(w) then s.txs[p].amount else 0
  {
    var to, amount := s.txs[p].to.value, s.txs[p].amount;
    FundingWeighs(s, p, support);
    forall w: WalletId ensures Sum([Movement(Own(s, to), amount)], Moved(w)) == if to == w then amount else 0 {
      SumOne(Movement(Own(s, to), amount), Moved(w));
    }
    MultiStep(s2, p, FundingLegs(s, s.txs[p].from.value, amount, support), [Movement(Own(s, to), amount)]);
  }

  /** Completing a purchase keeps the books unless it draws on a line whose type plans no installments; its
      merchant gains the amount, paid by the top-up, the backing repository or the wallet itself. */
  lemma {:induction false} SettleKeeps(s: State, p: TxId, support: Option<Funding>, today: Date)
    requires Inv(s) && Ready(s, p, support) && OnCalendar(today) && Settle(s, p, support, today).Ok?
    requires !DrawsUnplanned(s, s.txs[p].from.value, Remainder(s, p, support))
    ensures Kept(s, Settle(s, p, support, today).value)
    ensures forall w: WalletId :: Balance(Settle(s, p, support, today).value.journal, w)
              == Balance(s.journal, w) - PaidIn(s, p, support, w)
                  + if s.txs[p].to == Some(w) then s.txs[p].amount else 0
  {
    hide Inv, SameLines, Settle, FundPurchase, IsFunding;
    InvMoney(s);
    WalletsAreLinked(s.wallets);
    InvPlans(s);
    var s2 := SettleUnfolds(s, p, support, today);
    FundingTables(s, s2, p, support, today);
    CompletedFundingKeeps(s, s2, p, support, today);
    FundingCovered(s, s2, p, support, today);
    var u, s' := SetStatus(s2, p, Completed), Settle(s, p, support, today).value;
    InvMoney(u);
    PurchasePosted(s, s2, p, support);
    MoneyStepKeeps(u, s');
    LinesByMoney(u, s');
    LinesThrough(s, u, s');
  }

  /** What is owed no longer matches what is planned. */
  lemma {:induction false} SettledUnplanned(s: State, p: TxId, support: Option<Funding>, today: Date)
    requires Inv(s) && Ready(s, p, support) && OnCalendar(today) && Settle(s, p, support, today).Ok?
    requires DrawsUnplanned(s, s.txs[p].from.value, Remainder(s, p, support))
    ensures var s', from := Settle(s, p, support, today).value, s.txs[p].from.value;
            && s'.installments == s.installments
            && Receivable(s'.journal, from) == Sum(s'.installments, UnpaidOn(from)) + Remainder(s, p, support)
  {
    hide Inv, Settle, FundPurchase, PurchaseLegs;
    InvPlans(s);
    var s2 := SettleUnfolds(s, p, support, today);
    FundingTables(s, s2, p, support, today);
    var from, rest := s.txs[p].from.value, Remainder(s, p, support);
    DebtsHold(s);
    UnplannedDebt(Funded(s, p, support), s2, p, from, rest, today);
    LegsOweNothing(s, s2, p, support, from);
  }

  lemma {:induction false} DebtsHold(s: State)
    requires Inv(s)
    ensures DebtsOk(s.journal, s.installments)
  {
  }

  lemma {:induction false} LegsOweNothing(s: State, s2: State, p: TxId, support: Option<Funding>, w: WalletId)
    requires Payable(s, p, support) && BackingExists(s, s.txs[p].from.value)
        && Post(s2, p, PurchaseLegs(s, p, support)).Ok?
    ensures Receivable(Post(s2, p, PurchaseLegs(s, p, support)).value.journal, w) == Receivable(s2.journal, w)
  {
    MultiEffect(FundingLegs(s, s.txs[p].from.value, s.txs[p].amount, support),
        [Movement(Own(s, s.txs[p].to.value), s.txs[p].amount)]);
    JournalSnoc(s2.journal, Entry(p, PurchaseLegs(s, p, support)), OwedIn(w));
  }

  /** Completing a purchase keeps the books if and only if it does not draw on a line without a plan. */
  lemma {:induction false} SettleKeepsExactly(s: State, p: TxId, support: Option<Funding>, today: Date)
    requires Inv(s) && Ready(s, p, support) && OnCalendar(today) && Settle(s, p, support, today).Ok?
    ensures Inv(Settle(s, p, support, today).value)
        <==> !DrawsUnplanned(s, s.txs[p].from.value, Remainder(s, p, support))
    ensures Inv(Settle(s, p, support, today).value) ==> SameLines(s, Settle(s, p, support, today).value)
  {
    hide Inv, Settle, SameLines;
    if DrawsUnplanned(s, s.txs[p].from.value, Remainder(s, p, support)) {
      SettledUnplanned(s, p, support, today);
      if Inv(Settle(s, p, support, today).value) {
        DebtsHold(Settle(s, p, support, today).value);
      }
    } else {
      SettleKeeps(s, p, support, today);
    }
  }

  // ---- Top-ups ----

  lemma {:induction false} SupportWalletKeeps(s: State, user: nat, currency: CurrencyId)
    requires Inv(s) && SupportWalletFor(s, user, currency).Ok?
    ensures var (s1, support) := SupportWalletFor(s, user, currency).value;
            && Kept(s, s1) && s1 == s.(wallets := s1.wallets) && s.wallets <= s1.wallets
            && s1.wallets[support].typ.code == Support && s1.wallets[support].user == user
  {
    var (s1, support) := SupportWalletFor(s, user, currency).value;
    if |s1.wallets| > |s.wallets| {
      assert s1.wallets[..|s.wallets|] == s.wallets;
      forall id | 0 <= id < |s.txs| ensures RowOk(|s1.wallets|, |s.installments|, s.txs, id) {
        assert RowOk(|s.wallets|, |s.installments|, s.txs, id);
      }
      MoreWalletsKeep(s, s1.wallets, s.txs);
    }
  }

  /** Landing the top-up moves real money onto the support wallet, exactly once. */
  lemma {:induction false} LandTopUpKeeps(s: State, t: TxId, user: nat, currency: CurrencyId)
    requires Inv(s) && t < |s.txs| && s.txs[t].completes.Some? && LandTopUp(s, t, user, currency).Ok?
    ensures var (s1, support) := LandTopUp(s, t, user, currency).value;
            && Kept(s, s1) && s1.installments == s.installments && s.wallets <= s1.wallets
            && s1.wallets[support].typ.code == Support && s1.wallets[support].user == user
            && s1.txs[t].status == Completed
            && forall w: WalletId :: Balance(s1.journal, w) == Balance(s.journal, w)
                 + if w == support && s.txs[t].status != Completed then s.txs[t].amount else 0
  {
    hide Inv, SameLines, SupportWalletFor;
    var (s0, support) := SupportWalletFor(s, user, currency).value;
    SupportWalletKeeps(s, user, currency);
    if s.txs[t].status != Completed {
      var done := s.txs[t].(to := Some(support), status := Completed);
      InvRow(s0, t);
      ReplaceKeeps(s0, t, done);
      var u := s0.(txs := s0.txs[t := done]);
      InvMoney(u);
      AgainstStep(u, t, support, s.txs[t].amount, BankCash);
      MoneyStepKeeps(u, LandTopUp(s, t, user, currency).value.0);
      LinesByMoney(s0, LandTopUp(s, t, user, currency).value.0);
      LinesThrough(s, s0, LandTopUp(s, t, user, currency).value.0);
    }
  }

  predicate TopUpSettles(s: State, t: TxId)
    requires t < |s.txs| && s.txs[t].completes.Some?
  {
    s.txs[t].completes.value < |s.txs| && s.txs[s.txs[t].completes.value].status != Completed
  }

  lemma {:induction false} TopUpReady(s: State, t: TxId, today: Date)
    requires RowsOk(|s.wallets|, |s.installments|, s.txs) && t < |s.txs| && s.txs[t].completes.Some?
        && TopUpSettles(s, t)
    requires OnCalendar(today) && CompleteTopUp(s, t, today).Ok?
    ensures var p := s.txs[t].completes.value;
            var user, currency := s.wallets[s.txs[p].from.value].user, s.wallets[s.txs[p].from.value].typ.currency;
            && LandTopUp(s, t, user, currency).Ok?
            && var (s1, support) := LandTopUp(s, t, user, currency).value;
               Ready(s1, p, Some(Funding(support, s.txs[t].amount)))
               && CompleteTopUp(s, t, today) == Settle(s1, p, Some(Funding(support, s.txs[t].amount)), today)
  {
    hide Settle, LandTopUp;
    var p := s.txs[t].completes.value;
    assert RowOk(|s.wallets|, |s.installments|, s.txs, t) && RowOk(|s.wallets|, |s.installments|, s.txs, p);
    LandedSupport(s, t, s.wallets[s.txs[p].from.value].user, s.wallets[s.txs[p].from.value].typ.currency);
  }

  lemma {:induction false} LandedSupport(s: State, t: TxId, user: nat, currency: CurrencyId)
    requires t < |s.txs| && LandTopUp(s, t, user, currency).Ok?
    ensures var (s1, support) := LandTopUp(s, t, user, currency).value;
            && s1.wallets[support].typ.code == Support && s1.installments == s.installments
            && (forall q :: 0 <= q < |s.txs| && q != t ==> s1.txs[q] == s.txs[q])
  {
  }

  /** A top-up keeps the books if and only if what it leaves to draw is not drawn on a line without a plan. */
  lemma {:induction false} TopUpKeepsExactly(s: State, t: TxId, today: Date)
    requires Inv(s) && t < |s.txs| && s.txs[t].completes.Some? && OnCalendar(today) && CompleteTopUp(s, t, today).Ok?
    ensures Inv(CompleteTopUp(s, t, today).value) ==> SameLines(s, CompleteTopUp(s, t, today).value)
    ensures Inv(CompleteTopUp(s, t, today).value) <==> !TopUpUnplanned(s, t)
  {
    hide Inv, SameLines, Settle, LandTopUp;
    var p := s.txs[t].completes.value;
    var s' := CompleteTopUp(s, t, today).value;
    InvRow(s, t);
    InvRow(s, p);
    var user, currency := s.wallets[s.txs[p].from.value].user, s.wallets[s.txs[p].from.value].typ.currency;
    LandTopUpKeeps(s, t, user, currency);
    if TopUpSettles(s, t) {
      InvMoney(s);
      TopUpReady(s, t, today);
      var (s1, support) := LandTopUp(s, t, user, currency).value;
      SettleKeepsExactly(s1, p, Some(Funding(support, s.txs[t].amount)), today);
      if Inv(s') {
        LinesThrough(s, s1, s');
      }
    }
  }

  /** The top-up would complete a purchase that draws the rest on a line without a plan. */
  predicate TopUpUnplanned(s: State, t: TxId) {
    && t < |s.txs| && s.txs[t].completes.Some? && TopUpSettles(s, t)
    && var p := s.txs[t].completes.value;
       && p < |s.txs| && s.txs[p].from.Some? && s.txs[p].from.value < |s.wallets|
       && DrawsUnplanned(s, s.txs[p].from.value, s.txs[p].amount - s.txs[t].amount)
  }

  // ---- Refunds ----

  predicate Refundable(s: State, p: TxId) {
    && p < |s.txs| && IsPurchase(s.txs[p]) && s.txs[p].status == Completed
    && s.txs[p].from.Some? && s.txs[p].to.Some?
    && s.txs[p].from.value < |s.wallets| && s.txs[p].to.value < |s.wallets|
    && UnpaidDraw(s, p) >= 0 && (UnpaidDraw(s, p) > 0 ==> FindKey(s.txs, CreditFund(p)).Some?)
  }

  /** The state a refund reaches by its credit-line half alone. */
  function CanceledState(s: State, p: TxId): State
    requires Refundable(s, p)
  {
    var customer, unpaid := s.txs[p].from.value, UnpaidDraw(s, p);
    s.(wallets :=
        s.wallets[customer := s.wallets[customer].(virtualAmount := s.wallets[customer].virtualAmount + unpaid)],
       journal := if unpaid == 0 || !HasPlan(s.installments, p) then s.journal
                  else s.journal + [Entry(p, ReceivableLegs(Own(s, customer), -unpaid))],
       txs := s.txs[p := s.txs[p].(status := Reversed)],
       installments := CancelPlan(s.installments, p))
  }

  function Returned(s: State, p: TxId): seq<Tx>
    requires Refundable(s, p)
  {
    var customer := s.txs[p].from.value;
    if UnpaidDraw(s, p) > 0 then ReturnRows(p, customer, FundingRepository(s, p, customer), UnpaidDraw(s, p)) else []
  }

  lemma {:induction false} NothingToCancel(installments: seq<Installment>, p: TxId)
    requires !HasPlan(installments, p)
    ensures CancelPlan(installments, p) == installments
  {
  }

  function Unwound(s: State, p: TxId): Result<State>
    requires Refundable(s, p)
  {
    var customer := s.txs[p].from.value;
    UnwindCredit(s, p, customer, FundingRepository(s, p, customer), UnpaidDraw(s, p), UnpaidDraw(s, p) > 0)
  }

  /** The state after the first half of it: the ceiling restored, the rows recorded. */
  function DrawReturned(s: State, p: TxId): Result<State>
    requires Refundable(s, p)
  {
    var customer := s.txs[p].from.value;
    if UnpaidDraw(s, p) > 0 then ReturnDraw(s, p, customer, FundingRepository(s, p, customer), UnpaidDraw(s, p))
        else Ok(s)
  }

  lemma {:induction false} ReturnTables(s: State, p: TxId)
    requires Refundable(s, p) && DrawReturned(s, p).Ok?
    ensures DrawReturned(s, p).value == s.(wallets := CanceledState(s, p).wallets, txs := s.txs + Returned(s, p))
  {
    hide UnpaidDraw, FundingRepository, CancelPlan, ReceivableLegs, FindKey, HasPlan;
    var s0 := DrawReturned(s, p).value;
    assert s0.txs == s.txs + Returned(s, p) && s0.wallets == CanceledState(s, p).wallets;
  }

  lemma {:induction false} UnwindTables(s: State, p: TxId)
    requires Refundable(s, p) && Unwound(s, p).Ok?
    ensures p < |Unwound(s, p).value.txs|
    ensures SetStatus(Unwound(s, p).value, p, Reversed)
         == CanceledState(s, p).(txs := CanceledState(s, p).txs + Returned(s, p))
  {
    hide UnpaidDraw, FundingRepository, CancelPlan, ReceivableLegs, FindKey, Accepts, HasPlan, ReturnDraw, Returned;
    assert DrawReturned(s, p).Ok?;
    ReturnTables(s, p);
    if !HasPlan(s.installments, p) {
      NothingToCancel(s.installments, p);
    }
    assert (s.txs + Returned(s, p))[p := s.txs[p].(status := Reversed)]
        == s.txs[p := s.txs[p].(status := Reversed)] + Returned(s, p);
  }

  function RefundRowOf(s: State, p: TxId, key: string): Tx
    requires Refundable(s, p)
  {
    RefundRow(s.txs[p].to.value, s.txs[p].from.value, s.txs[p].amount, p, key)
  }

  function RefundCredits(s: State, p: TxId): seq<Movement>
    requires Refundable(s, p) && FundingRepository(s, p, s.txs[p].from.value) < |s.wallets|
  {
    [Movement(Own(s, s.txs[p].from.value), s.txs[p].amount - UnpaidDraw(s, p))]
    + if UnpaidDraw(s, p) > 0 then [Movement(Own(s, FundingRepository(s, p, s.txs[p].from.value)), UnpaidDraw(s, p))]
        else []
  }

  lemma {:induction false} RefundUnfolds(s: State, p: TxId, key: string) returns (s3: State)
    requires Refundable(s, p) && RefundCompleted(s, p, key).Ok?
    ensures FundingRepository(s, p, s.txs[p].from.value) < |s.wallets|
    ensures Balance(s.journal, s.txs[p].to.value) >= s.txs[p].amount
    ensures Unwound(s, p).Ok? && p < |Unwound(s, p).value.txs|
    ensures Insert(SetStatus(Unwound(s, p).value, p, Reversed), RefundRowOf(s, p, key)) == Ok(s3)
    ensures RefundCompleted(s, p, key)
         == Post(s3, |Unwound(s, p).value.txs|,
                 MultiLegs([Movement(Own(s, s.txs[p].to.value), s.txs[p].amount)], RefundCredits(s, p)))
  {
    s3 := Insert(SetStatus(Unwound(s, p).value, p, Reversed), RefundRowOf(s, p, key)).value;
  }

  lemma {:induction false} CompletedIsRefundable(s: State, p: TxId)
    requires Inv(s) && p < |s.txs| && IsPurchase(s.txs[p]) && s.txs[p].status == Completed
    ensures Refundable(s, p) && IsCancellation(s, CanceledState(s, p), p, s.txs[p].from.value)
  {
    hide Inv, UnpaidDraw, CancelPlan, ReceivableLegs;
    InvRow(s, p);
    PlanOfCompleted(s, p);
    PaidWithinDraw(s, p);
    if !HasPlan(s.installments, p) {
      SumZero(s.installments, UnpaidUnder(p));
      SumZero(s.installments, CanceledUnder(p));
    }
  }

  /** A plan is canceled once: giving the draw back again would need the same key. */
  lemma {:induction false} CanceledIsReturned(s: State, p: TxId)
    requires Inv(s) && Refundable(s, p) && Unwound(s, p).Ok?
    ensures Sum(s.installments, CanceledUnder(p)) == 0
  {
    hide Inv, CancelPlan, ReceivableLegs;
    PaidWithinDraw(s, p);
    CanceledKey(s, p);
  }

  lemma {:induction false} CanceledKey(s: State, p: TxId)
    requires Inv(s) && p < |s.txs|
    ensures Sum(s.installments, CanceledUnder(p)) > 0 ==> FindKey(s.txs, CreditFundReverse(p)).Some?
  {
  }

  /** A purchase that a late top-up completed again after its plan was canceled cannot be refunded a second time. */
  lemma {:induction false} SecondRefundFails(s: State, user: nat, p: TxId, key: string)
    requires Inv(s) && p < |s.txs| && IsPurchase(s.txs[p]) && s.txs[p].status == Completed
    requires Sum(s.installments, CanceledUnder(p)) > 0
    ensures Refund(s, user, p, key).Fail?
  {
    hide Inv, Unwound, UnpaidDraw, FundingRepository;
    CompletedIsRefundable(s, p);
    if RefundCompleted(s, p, key).Ok? {
      var _ := RefundUnfolds(s, p, key);
      CanceledIsReturned(s, p);
    }
  }

  lemma {:induction false} ReturnRowsKeep(s: State, p: TxId, customer: WalletId, r: WalletId, amount: int)
    requires Inv(s) && customer < |s.wallets| && r < |s.wallets| && amount > 0
    ensures Inv(s.(txs := s.txs + ReturnRows(p, customer, r, amount)))
  {
    var rows := ReturnRows(p, customer, r, amount);
    InsertKeeps(s, rows[0]);
    var s1 := s.(txs := s.txs + [rows[0]]);
    InsertKeeps(s1, rows[1]);
    assert s1.txs + [rows[1]] == s.txs + rows;
  }

  /** Plan canceled, rows recorded: the books hold before the money moves back. */
  lemma {:induction false} UnwoundKeeps(s: State, p: TxId, row: Tx)
    requires Inv(s) && Refundable(s, p) && Unwound(s, p).Ok?
        && FundingRepository(s, p, s.txs[p].from.value) < |s.wallets|
    requires row.kind == Purchase && row.status == Reversed && row.related.Some? && row.key.Client? && row.amount > 0
    requires InTable(row.from, |s.wallets|) && InTable(row.to, |s.wallets|) && !IsRepayment(row) && row.completes.None?
    ensures p < |Unwound(s, p).value.txs|
    ensures var s2 := SetStatus(Unwound(s, p).value, p, Reversed);
            && s2.wallets == CanceledState(s, p).wallets
            && Kept(s, s2.(txs := s2.txs + [row])) && HoldersOf(s2.wallets) == HoldersOf(s.wallets)
            && forall w: WalletId :: Balance(s2.journal, w) == Balance(s.journal, w)
  {
    hide Inv, UnwindCredit, Unwound, SameLines, UnpaidDraw, FundingRepository, IsCancellation, CanceledState;
    var u := s.(txs := s.txs + Returned(s, p));
    CanceledIsReturned(s, p);
    if UnpaidDraw(s, p) > 0 {
      ReturnRowsKeep(s, p, s.txs[p].from.value, FundingRepository(s, p, s.txs[p].from.value), UnpaidDraw(s, p));
    } else {
      assert s.txs + [] == s.txs;
    }
    ReturnedFirst(s, p);
    CompletedIsRefundable(u, p);
    CancellationKeeps(u, CanceledState(u, p), p, s.txs[p].from.value);
    UnwindTables(s, p);
    var s2 := SetStatus(Unwound(s, p).value, p, Reversed);
    InsertKeeps(s2, row);
    LinesByMoney(s, u);
    LinesByMoney(s2, s2.(txs := s2.txs + [row]));
    LinesThrough(s, u, s2);
    LinesThrough(s, s2, s2.(txs := s2.txs + [row]));
  }

  /** Recording the return before the plan is canceled comes to the same tables. */
  lemma {:induction false} ReturnedFirst(s: State, p: TxId)
    requires Refundable(s, p)
    ensures var u := s.(txs := s.txs + Returned(s, p));
            && Refundable(u, p) && UnpaidDraw(u, p) == UnpaidDraw(s, p)
            && (UnpaidDraw(s, p) > 0 ==> FindKey(u.txs, CreditFundReverse(p)).Some?)
            && CanceledState(u, p) == CanceledState(s, p).(txs := CanceledState(s, p).txs + Returned(s, p))
            && CanceledState(u, p).wallets == CanceledState(s, p).wallets
            && HoldersOf(CanceledState(u, p).wallets) == HoldersOf(s.wallets)
  {
    hide FundingRepository, CancelPlan, ReceivableLegs, FindKey, UnpaidDraw, Returned, HasPlan;
    var u := s.(txs := s.txs + Returned(s, p));
    ReturnKeys(s, p);
    assert u.txs[p] == s.txs[p];
    assert u.txs[p := u.txs[p].(status := Reversed)] == s.txs[p := s.txs[p].(status := Reversed)] + Returned(s, p);
    assert HoldersOf(CanceledState(u, p).wallets) == HoldersOf(s.wallets);
  }

  lemma {:induction false} ReturnKeys(s: State, p: TxId)
    requires Refundable(s, p)
    ensures var u := s.(txs := s.txs + Returned(s, p));
            && UnpaidDraw(u, p) == UnpaidDraw(s, p)
                && FindKey(u.txs, CreditFund(p)).Some? == FindKey(s.txs, CreditFund(p)).Some?
            && (UnpaidDraw(s, p) > 0 ==> FindKey(u.txs, CreditFundReverse(p)).Some?)
  {
    hide FundingRepository, FindKey;
    var u := s.(txs := s.txs + Returned(s, p));
    if UnpaidDraw(s, p) > 0 {
      var rows := Returned(s, p);
      assert u.txs == (s.txs + [rows[0]]) + [rows[1]];
      FindKeySnoc(s.txs, rows[0], CreditFund(p));
      FindKeySnoc(s.txs + [rows[0]], rows[1], CreditFund(p));
      FindKeySnoc(s.txs, rows[0], CreditFundReverse(p));
      FindKeySnoc(s.txs + [rows[0]], rows[1], CreditFundReverse(p));
    } else {
      assert u.txs == s.txs;
    }
  }

  /** Who a refund pays back, and how much. */
  function PaidBack(s: State, p: TxId, w: WalletId): int
    requires Refundable(s, p)
  {
    var customer, unpaid := s.txs[p].from.value, UnpaidDraw(s, p);
    (if w == customer && s.txs[p].amount > unpaid then s.txs[p].amount - unpaid else 0)
    + (if w == FundingRepository(s, p, customer) && unpaid > 0 then unpaid else 0)
  }

  lemma {:induction false} RefundPosted(s: State, s3: State, p: TxId, tx: TxId)
    requires Refundable(s, p) && FundingRepository(s, p, s.txs[p].from.value) < |s.wallets|
    requires MoneyOk(s3.wallets, s3.journal) && HoldersOf(s3.wallets) == HoldersOf(s.wallets) && s.txs[p].amount > 0
    requires Balance(s3.journal, s.txs[p].to.value) >= s.txs[p].amount
    requires Post(s3, tx, MultiLegs([Movement(Own(s, s.txs[p].to.value), s.txs[p].amount)], RefundCredits(s, p))).Ok?
    ensures var s4 :=
        Post(s3, tx, MultiLegs([Movement(Own(s, s.txs[p].to.value), s.txs[p].amount)], RefundCredits(s, p))).value;
            && MoneyStep(s3, s4)
            && forall w: WalletId :: Balance(s4.journal, w)
                 == Balance(s3.journal, w) + PaidBack(s, p, w) - if s.txs[p].to == Some(w) then s.txs[p].amount else 0
  {
    var debit, credits := Movement(Own(s, s.txs[p].to.value), s.txs[p].amount), RefundCredits(s, p);
    forall w: WalletId
      ensures Sum(credits, Moved(w)) == PaidBack(s, p, w)
      ensures Sum([debit], Moved(w)) == if s.txs[p].to == Some(w) then s.txs[p].amount else 0
    {
      SumOne(debit, Moved(w));
      if |credits| == 1 {
        SumOne(credits[0], Moved(w));
        assert credits == [credits[0]];
      } else {
        SumPair(credits[0], credits[1], Moved(w));
        assert credits == [credits[0], credits[1]];
      }
    }
    MultiStep(s3, tx, [debit], credits);
  }

  /** A refund keeps the books: the unpaid part of the draw goes back to the repository and the ceiling,
      the rest of the price to the customer, all of it from the merchant. */
  lemma {:induction false} RefundKeeps(s: State, p: TxId, key: string)
    requires Inv(s) && p < |s.txs| && IsPurchase(s.txs[p]) && s.txs[p].status == Completed
    requires RefundCompleted(s, p, key).Ok?
    ensures Refundable(s, p) && Kept(s, RefundCompleted(s, p, key).value)
    ensures RefundCompleted(s, p, key).value.wallets == CanceledState(s, p).wallets
    ensures forall w: WalletId :: Balance(RefundCompleted(s, p, key).value.journal, w)
              == Balance(s.journal, w) + PaidBack(s, p, w) - if s.txs[p].to == Some(w) then s.txs[p].amount else 0
  {
    hide Inv, SameLines, Unwound, RefundCompleted, UnpaidDraw, FundingRepository;
    CompletedIsRefundable(s, p);
    InvRow(s, p);
    var s3 := RefundUnfolds(s, p, key);
    UnwoundKeeps(s, p, RefundRowOf(s, p, key));
    InvMoney(s3);
    RefundPosted(s, s3, p, |Unwound(s, p).value.txs|);
    MoneyStepKeeps(s3, RefundCompleted(s, p, key).value);
    LinesByMoney(s3, RefundCompleted(s, p, key).value);
    LinesThrough(s, s3, RefundCompleted(s, p, key).value);
  }

  // ---- Which rows and entries these requests leave behind ----

  predicate NoPurchaseFrom(txs: seq<Tx>, n: nat) {
    forall id :: n <= id < |txs| ==> txs[id].kind != Purchase && txs[id].status == Completed
  }

  /** A settlement completes its own row, adds funding rows, and posts one entry that moves money. */
  lemma {:induction false} SettleRows(s: State, p: TxId, support: Option<Funding>, today: Date)
    requires PlansDrawn(s.txs, s.installments) && Ready(s, p, support) && OnCalendar(today)
        && Settle(s, p, support, today).Ok?
    ensures BackingExists(s, s.txs[p].from.value)
    ensures var s' := Settle(s, p, support, today).value;
            var tracked := if DrawsOnLine(s, s.txs[p].from.value, Remainder(s, p, support))
                           then [Entry(p, ReceivableLegs(Own(s, s.txs[p].from.value), Remainder(s, p, support)))]
                               else [];
            && |s.txs| <= |s'.txs| && s'.txs[p] == s.txs[p].(status := Completed) && NoPurchaseFrom(s'.txs, |s.txs|)
            && (forall id :: 0 <= id < |s.txs| && id != p ==> s'.txs[id] == s.txs[id])
            && s'.journal == s.journal + tracked + [Entry(p, PurchaseLegs(s, p, support))]
  {
    hide Settle, FundPurchase, ReceivableLegs, PurchaseLegs, Accepts, IsFunding;
    var s2 := SettleUnfolds(s, p, support, today);
    FundingTables(s, s2, p, support, today);
    FundingLeaves(s, s2, p, support, today);
  }

  lemma {:induction false} FundingLeaves(s: State, s2: State, p: TxId, support: Option<Funding>, today: Date)
    requires Ready(s, p, support) && IsFunding(s, s2, p, support, today)
    ensures var tracked := if DrawsOnLine(s, s.txs[p].from.value, Remainder(s, p, support))
                           then [Entry(p, ReceivableLegs(Own(s, s.txs[p].from.value), Remainder(s, p, support)))]
                               else [];
            && s.txs <= s2.txs && NoPurchaseFrom(s2.txs, |s.txs|) && s2.journal == s.journal + tracked
  {
    hide ReceivableLegs, FindKey, HasPlan, Schedule, PlanRows;
    assert s.journal + [] == s.journal;
  }

  /** A refund reverses its own row, adds its rows and the marker, and posts one entry that moves money. */
  lemma {:induction false} RefundRows(s: State, p: TxId, key: string)
    requires Refundable(s, p) && RefundCompleted(s, p, key).Ok?
    ensures FundingRepository(s, p, s.txs[p].from.value) < |s.wallets|
    ensures var s' := RefundCompleted(s, p, key).value;
            var n := |s.txs| + |Returned(s, p)|;
            && Accepts(MultiLegs([Movement(Own(s, s.txs[p].to.value), s.txs[p].amount)], RefundCredits(s, p)))
            && s'.txs == s.txs[p := s.txs[p].(status := Reversed)] + Returned(s, p) + [RefundRowOf(s, p, key)]
            && s'.journal == CanceledState(s, p).journal
                 + [Entry(n, MultiLegs([Movement(Own(s, s.txs[p].to.value), s.txs[p].amount)], RefundCredits(s, p)))]
  {
    hide RefundCompleted, Unwound, ReceivableLegs, MultiLegs, Accepts, UnpaidDraw, FundingRepository;
    var s3 := RefundUnfolds(s, p, key);
    UnwindTables(s, p);
  }
}
