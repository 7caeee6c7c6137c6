/** The services as they run: rows updated in place inside a database transaction, loops and all, and the
    balance-change events emitted on the way. Every method is held to the function of the old tables that
    specifies it; of the events it says that they follow the journal, as it is when the method ends or throws. */
module Engine {
  import opened Common
  import opened Sums
  import opened Ledger
  import opened Installments
  import opened Settlement
  import opened Bank
  import opened BankInvariant
  import opened MoneyMoves
  import opened Payouts
  import opened Safety
  import opened Solvency
  import opened Feed

  /** What a call reports; a failure unwinds the transaction it runs in. */
  datatype Outcome = Done | Failed(error: Error) {
    predicate IsFailure() { Failed? }

    function PropagateFailure(): Outcome
      requires Failed?
    {
      this
    }
  }

  predicate Did(o: Outcome, spec: Result<State>, now: State) {
    match spec
    case Ok(after) => o.Done? && now == after
    case Fail(error) => o == Failed(error)
  }

  function Require(condition: bool, error: Error): Outcome {
    if condition then Done else Failed(error)
  }

  class MoneyEngine {
    var wallets: seq<Wallet>
    var txs: seq<Tx>
    var installments: seq<Installment>
    var journal: Journal
    var overrides: map<TxId, seq<SplitRow>>
    var defaults: map<WalletId, seq<SplitRow>>
    var supportTypes: map<CurrencyId, WalletType>
    /** Outside the database: no rollback takes an event back. */
    var events: seq<BalanceChanged>

    /** How far a subscriber's fold is ahead of the wallet's balance. */
    ghost function Drift(w: WalletId): int
      reads this`events, this`journal
    {
      Sum(events, DeltaFor(w)) - Balance(journal, w)
    }

    function Tables(): State
      reads this
    {
      State(wallets, txs, installments, journal, defaults, overrides, supportTypes)
    }

    constructor (s: State)
      ensures Tables() == s && events == []
    {
      events := [];
      wallets, txs, installments, journal := s.wallets, s.txs, s.installments, s.journal;
      overrides, defaults, supportTypes := s.overrides, s.defaults, s.supportTypes;
    }

    // ---- Rows and entries ----

    method Save(t: Tx) returns (o: Outcome)
      modifies this`txs
      ensures Did(o, Insert(old(Tables()), t), Tables()) && old(txs) <= txs
    {
      var rows := txs + [t];
      :- Require(t.amount > 0, AmountNotPositive);
      :- Require(FindKey(txs, t.key).None?, DuplicateKey);
      txs := rows;
      return Done;
    }

    method PostEntry(tx: TxId, legs: seq<Leg>) returns (o: Outcome)
      modifies this`journal, this`events
      ensures Did(o, Post(old(Tables()), tx, legs), Tables())
      ensures forall v: WalletId :: Drift(v) == old(Drift(v))
      ensures o.Failed? ==> journal == old(journal)
    {
      var entry := Entry(tx, legs);
      :- Require(Accepts(legs), Unbalanced);
      journal := journal + [entry];
      events := events + EventsOf(entry);
      forall v: WalletId ensures Drift(v) == old(Drift(v)) {
        EventsFollowLegs(tx, legs, v);
        SumConcat(old(events), EventsOf(entry), DeltaFor(v));
        JournalSnoc(old(journal), entry, BalanceIn(v));
      }
      return Done;
    }

    method PostMirror(tx: TxId, w: WalletId, delta: int) returns (o: Outcome)
      requires w < |wallets|
      modifies this`journal, this`events
      ensures Did(o, Mirror(old(Tables()), tx, w, delta), Tables())
      ensures forall v: WalletId :: Drift(v) == old(Drift(v))
      ensures o.Failed? ==> journal == old(journal)
    {
      if wallets[w].repository.Some? && delta != 0 {
        o := PostEntry(tx, Against(Own(Tables(), w), delta, RepositoryAllocations));
        return;
      }
      return Done;
    }

    method PostCreditReceivable(tx: TxId, w: WalletId, delta: int) returns (o: Outcome)
      requires w < |wallets|
      modifies this`journal, this`events
      ensures Did(o, PostReceivable(old(Tables()), tx, w, delta), Tables())
      ensures forall v: WalletId :: Drift(v) == old(Drift(v))
      ensures SameBalances(old(journal), journal)
    {
      if delta == 0 {
        return Done;
      }
      var h := Own(Tables(), w);
      o := PostEntry(tx, ReceivableLegs(h, delta));
      ReceivableMovesNoBalance(old(journal), tx, h, delta);
    }

    // ---- Repayments: slices, settling, unblocking ----

    /** Routes each slice to its sub-repository or leaves it with the main one. */
    method CreditFeeSplitLegs(main: WalletId, parts: seq<Part>, transfer: bool, prefix: SplitPrefix)
      returns (o: Outcome, unrouted: int, routedLegs: seq<Movement>)
      modifies this`txs
      ensures Route(old(Tables()), main, parts, transfer, prefix).Ok? ==>
                o.Done? && Route(old(Tables()), main, parts, transfer, prefix).value
                    == Routed(Tables(), unrouted, routedLegs)
      ensures Route(old(Tables()), main, parts, transfer, prefix).Fail? ==>
                o == Failed(Route(old(Tables()), main, parts, transfer, prefix).error)
    {
      hide Route, Insert;
      ghost var before := Tables();
      NothingRoutedYet(before, main, transfer, prefix);
      unrouted, routedLegs := 0, [];
      for n := 0 to |parts|
        invariant Route(before, main, parts[..n], transfer, prefix) == Ok(Routed(Tables(), unrouted, routedLegs))
      {
        var part := parts[n];
        RouteNext(before, main, parts, n, transfer, prefix, Routed(Tables(), unrouted, routedLegs));
        FailsLater(before, main, parts, n + 1, transfer, prefix);
        if part.amount <= 0 {
          continue;
        }
        if part.target.None? {
          unrouted := unrouted + part.amount;
          continue;
        }
        if part.target.value >= |wallets| {
          o := Failed(NotFound);
          return;
        }
        if wallets[part.target.value].closed {
          unrouted := unrouted + part.amount;
          continue;
        }
        o := Save(Row(if transfer then Transfer else Deposit, Completed, if transfer then Some(main) else None,
                      part.target, part.amount, SliceKey(prefix, part.slice)));
        if o.Failed? {
          return;
        }
        routedLegs := routedLegs + [Movement(Own(Tables(), part.target.value), part.amount)];
      }
      assert parts[..|parts|] == parts;
      o := Done;
    }

    method SettleOneInstallment(i: nat, tx: TxId) returns (o: Outcome)
      requires i < |installments|
      modifies this
      ensures Did(o, SettleOne(old(Tables()), i, tx), Tables())
      ensures o.Done? ==> |installments| == old(|installments|) && overrides == old(overrides)
      ensures forall v: WalletId :: Drift(v) == old(Drift(v))
      ensures SameBalances(old(journal), journal)
    {
      var row := installments[i];
      installments := installments[i := row.(status := Paid)];
      if row.wallet >= |wallets| {
        return Done;
      }
      :- PostCreditReceivable(tx, row.wallet, -row.principal);
      wallets :=
          wallets[row.wallet :=
              wallets[row.wallet].(virtualAmount := wallets[row.wallet].virtualAmount + row.principal)];
      o := Save(Row(Virtual, Completed, None, Some(row.wallet), row.principal, InstallmentRestore(i)));
    }

    method ClearBlock(w: WalletId)
      modifies this`wallets
      ensures Tables() == Unblock(old(Tables()), w)
    {
      if w < |wallets| {
        wallets := wallets[w := wallets[w].(blocked := false)];
      }
    }

    method MarkInstallmentPaid(i: nat, tx: TxId) returns (o: Outcome)
      modifies this
      ensures Did(o, MarkPaid(old(Tables()), i, tx), Tables())
      ensures forall v: WalletId :: Drift(v) == old(Drift(v))
      ensures SameBalances(old(journal), journal)
    {
      if i >= |installments| {
        return Done;
      }
      var w := installments[i].wallet;
      :- SettleOneInstallment(i, tx);
      ClearBlock(w);
      return Done;
    }

    /** Settles every outstanding row of a wallet, one after the other, and lifts its block. */
    method MarkAllPaidAndUnblock(w: WalletId, tx: TxId) returns (o: Outcome)
      modifies this
      ensures Did(o, MarkAllPaid(old(Tables()), w, tx), Tables())
      ensures forall v: WalletId :: Drift(v) == old(Drift(v))
      ensures SameBalances(old(journal), journal)
    {
      hide SettleOne, Unblock;
      ghost var before := Tables();
      var count := |installments|;
      for n := 0 to count
        invariant |installments| == count && SettleOutstanding(before, w, n, tx) == Ok(Tables())
        invariant SameBalances(old(journal), journal) && forall v: WalletId :: Drift(v) == old(Drift(v))
      {
        SettlingFailsLater(before, w, n + 1, tx);
        if installments[n].wallet == w && Unpaid(installments[n]) {
          o := SettleOneInstallment(n, tx);
          if o.Failed? {
            return;
          }
        }
      }
      ClearBlock(w);
      return Done;
    }

    /** A verified charge: principal and what could not be routed to the repository, the slices to theirs. */
    method CreditInstallmentRepayment(t: TxId, main: WalletId) returns (o: Outcome)
      requires t < |txs| && main < |wallets| && IsRepayment(txs[t])
      modifies this`txs, this`journal, this`events
      ensures Did(o, CreditRepayment(old(Tables()), t, main), Tables())
      ensures forall v: WalletId :: Drift(v) == old(Drift(v))
      ensures o.Failed? ==> SameBalances(old(journal), journal)
    {
      hide Route, RepaymentSplit, Parts, OutstandingRows, CashInLegs, Accepts;
      var tx := txs[t];
      if tx.installment.Some? && tx.installment.value >= |installments| {
        return Done;
      }
      var rows, w := [], 0;
      if tx.installment.Some? {
        rows, w := [installments[tx.installment.value]], installments[tx.installment.value].wallet;
      } else {
        rows, w := OutstandingRows(installments, tx.settles.value), tx.settles.value;
      }
      var split := ComputeRepaymentSplit(rows);
      var unblockFee := tx.amount - split.principal - split.fee - split.penalty;
      :- Require(w < |wallets|, NotFound);
      var unrouted, routedLegs;
      o, unrouted, routedLegs :=
        CreditFeeSplitLegs(main, Parts(wallets[w].typ.terms, split.fee, split.penalty, unblockFee), false,
                           OfRepayment(t));
      if o.Failed? {
        return;
      }
      var toRepository := split.principal + unrouted;
      :- PostEntry(t, CashInLegs(BankCash, wallets[main].typ.currency, tx.amount,
                                 [Movement(Own(Tables(), main), toRepository)] + routedLegs));
      txs := txs[t := txs[t].(amount := toRepository)];
      return Done;
    }

    method ReceiveVerifiedMoney(t: TxId) returns (o: Outcome)
      requires t < |txs|
      modifies this
      ensures Did(o, ReceiveMoney(old(Tables()), t), Tables())
      ensures forall v: WalletId :: Drift(v) == old(Drift(v))
      ensures o.Failed? ==> SameBalances(ReceiveStop(old(Tables()), t), journal)
    {
      var tx := txs[t];
      :- Require(tx.to.Some?, NotFound);
      :- Require(tx.to.value < |wallets|, NotFound);
      :- Require(!wallets[tx.to.value].closed, WalletClosed);
      if IsRepayment(tx) {
        :- CreditInstallmentRepayment(t, tx.to.value);
        :- Require(txs[t].amount > 0, AmountNotPositive);
        txs := txs[t := txs[t].(status := Completed)];
        if tx.installment.Some? {
          :- MarkInstallmentPaid(tx.installment.value, t);
        }
        if tx.settles.Some? {
          :- MarkAllPaidAndUnblock(tx.settles.value, t);
        }
        return Done;
      }
      :- MoveCashIn(t, tx.to.value, tx.amount);
      txs := txs[t := txs[t].(status := Completed)];
      return Done;
    }

    method MoveCashIn(tx: TxId, w: WalletId, amount: int) returns (o: Outcome)
      requires w < |wallets|
      modifies this`journal, this`events
      ensures Did(o, PayIn(old(Tables()), tx, w, amount), Tables())
      ensures forall v: WalletId :: Drift(v) == old(Drift(v))
      ensures o.Failed? ==> SameBalances(old(journal), journal)
    {
      var holder := LedgerHolder(Tables(), w);
      if holder.Fail? {
        return Failed(holder.error);
      }
      :- PostEntry(tx, Against(holder.value, amount, BankCash));
      MirrorGoes(Tables(), tx, w, amount);
      o := PostMirror(tx, w, amount);
    }

    // ---- Purchases ----

    /** One row per line of the schedule; a plan already on record is left as it is. */
    method CreateForPurchase(w: WalletId, purchase: TxId, drawn: int, today: Date)
      requires w < |wallets| && OnCalendar(today)
      modifies this`installments
      ensures Tables() == CreatePlan(old(Tables()), w, purchase, drawn, today)
    {
      if HasPlan(installments, purchase) {
        return;
      }
      ghost var before := installments;
      var schedule := BuildSchedule(drawn, wallets[w].typ.terms, today);
      for n := 0 to |schedule|
        invariant installments == before + PlanRows(w, purchase, schedule)[..n]
      {
        var r := schedule[n];
        installments := installments + [Installment(w, purchase, r.sequenceNumber, r.principal, r.fee, r.amount,
                                                    DayNumber(r.due), DayNumber(r.deadline), false, false, 0, Pending)];
      }
    }

    method DrawOnCreditLine(p: TxId, from: WalletId, amount: int, today: Date) returns (o: Outcome)
      requires from < |wallets| && wallets[from].repository.Some? && OnCalendar(today)
      modifies this
      ensures Did(o, Draw(old(Tables()), p, from, amount, today), Tables())
      ensures forall v: WalletId :: Drift(v) == old(Drift(v))
      ensures SameBalances(old(journal), journal)
    {
      hide Insert, PostReceivable, CreatePlan, Balance;
      var available, r := wallets[from].virtualAmount, wallets[from].repository.value;
      :- Require(amount <= available, CeilingExceeded);
      :- Require(r < |wallets|, NotFound);
      :- Require(Balance(journal, r) - amount >= 0, RepositoryShort);
      wallets := wallets[from := wallets[from].(virtualAmount := available - amount)];
      :- PostCreditReceivable(p, from, amount);
      :- Save(Row(Transfer, Completed, Some(r), Some(from), amount, CreditFund(p)));
      :- Save(Row(Virtual, Completed, Some(from), None, amount, CreditDraw(p)));
      CreateForPurchase(from, p, amount, today);
      return Done;
    }

    method FundThePurchase(p: TxId, support: Option<Funding>, today: Date) returns (o: Outcome)
      requires p < |txs| && txs[p].from.Some? && txs[p].from.value < |wallets| && OnCalendar(today)
      modifies this
      ensures Did(o, FundPurchase(old(Tables()), p, support, today), Tables())
      ensures forall v: WalletId :: Drift(v) == old(Drift(v))
      ensures SameBalances(old(journal), journal)
    {
      hide Draw, Balance, FindKey;
      var from := txs[p].from.value;
      var remainder := txs[p].amount - if support.Some? then support.value.amount else 0;
      if support.Some? && support.value.amount > 0 {
        :- Require(Balance(journal, support.value.wallet) - support.value.amount >= 0, InsufficientBalance);
        :- Save(Row(Transfer, Completed, Some(support.value.wallet), Some(from), support.value.amount, SupportFund(p)));
      }
      if DrawsOnLine(Tables(), from, remainder) {
        :- DrawOnCreditLine(p, from, remainder, today);
      }
      return Done;
    }

    /** Funds, checks, posts and completes a purchase. */
    method SettleCreditFundedPurchase(p: TxId, support: Option<Funding>, today: Date) returns (o: Outcome)
      requires p < |txs| && txs[p].from.Some? && txs[p].to.Some?
      requires txs[p].from.value < |wallets| && txs[p].to.value < |wallets|
      requires support.Some? ==> support.value.wallet < |wallets|
      requires OnCalendar(today)
      modifies this
      ensures Did(o, Settle(old(Tables()), p, support, today), Tables())
      ensures forall v: WalletId :: Drift(v) == old(Drift(v))
      ensures o.Failed? ==> SameBalances(old(journal), journal)
    {
      hide FundPurchase, Balance, Drift, MultiLegs, FundingLegs, Accepts;
      var from, to, amount := txs[p].from.value, txs[p].to.value, txs[p].amount;
      var remainder := amount - if support.Some? then support.value.amount else 0;
      var draws, seen := DrawsOnLine(Tables(), from, remainder), Tables();
      :- FundThePurchase(p, support, today);
      :- Require(seen.wallets[from].repository.Some?
          ==> seen.wallets[from].repository.value < |seen.wallets|, NotFound);
      var externallyFunded := (if support.Some? && support.value.amount > 0 then support.value.amount else 0)
                              + if draws then remainder else 0;
      :- Require(Balance(journal, from) + externallyFunded - amount >= 0, InsufficientBalance);
      :- PostEntry(p, MultiLegs(FundingLegs(seen, from, amount, support), [Movement(Own(seen, to), amount)]));
      txs := txs[p := txs[p].(status := Completed)];
      return Done;
    }

    method FindOrCreateSupportWallet(user: nat, currency: CurrencyId) returns (o: Outcome, support: WalletId)
      modifies this`wallets
      ensures SupportWalletFor(old(Tables()), user, currency).Ok? ==>
                o.Done? && SupportWalletFor(old(Tables()), user, currency).value == (Tables(), support)
      ensures SupportWalletFor(old(Tables()), user, currency).Fail? ==>
                o == Failed(SupportWalletFor(old(Tables()), user, currency).error)
    {
      support := 0;
      var found := FindSupport(wallets, user, currency);
      if found.Some? {
        return Done, found.value;
      }
      if !(currency in supportTypes && supportTypes[currency].code == Support
          && supportTypes[currency].currency == currency) {
        return Failed(NotSupported), 0;
      }
      support := |wallets|;
      wallets := wallets + [Wallet(supportTypes[currency], user, None, 0, false, false, None)];
      o := Done;
    }

    /** A verified top-up lands on the support wallet once, and completes the purchase it was asked for. */
    method CompleteSupportTopUp(t: TxId, today: Date) returns (o: Outcome)
      requires t < |txs| && txs[t].completes.Some? && OnCalendar(today)
      modifies this
      ensures Did(o, CompleteTopUp(old(Tables()), t, today), Tables())
      ensures forall v: WalletId :: Drift(v) == old(Drift(v))
      ensures o.Failed? ==> SameBalances(TopUpStop(old(Tables()), t), journal)
    {
      hide SupportWalletFor, Settle, Post;
      var topUp, p := txs[t], txs[t].completes.value;
      :- Require(p < |txs| && p != t && txs[p].from.Some? && txs[p].to.Some?, NotFound);
      :- Require(txs[p].from.value < |wallets| && txs[p].to.value < |wallets|, NotFound);
      var purchase, from, to := txs[p], wallets[txs[p].from.value], wallets[txs[p].to.value];
      var support;
      o, support := FindOrCreateSupportWallet(from.user, from.typ.currency);
      if o.Failed? {
        return;
      }
      if topUp.status != Completed {
        txs := txs[t := topUp.(to := Some(support), status := Completed)];
        :- PostEntry(t, Against(Own(Tables(), support), topUp.amount, BankCash));
      }
      if purchase.status != Completed {
        :- Require(!from.closed && !to.closed, WalletClosed);
        :- SettleCreditFundedPurchase(p, Some(Funding(support, topUp.amount)), today);
      }
      return Done;
    }

    /** The callback: decides what a verification is about, and moves money only on a paid answer. */
    method VerifyPurchase(t: TxId, paid: bool, now: int, today: Date) returns (o: Outcome)
      requires OnCalendar(today)
      modifies this
      ensures Did(o, Verify(old(Tables()), t, paid, now, today), Tables())
      ensures forall v: WalletId :: Drift(v) == old(Drift(v))
      ensures o.Failed? ==> SameBalances(VerifyStop(old(Tables()), t, paid, now), journal)
    {
      hide CompleteTopUp, ReceiveMoney, Settle;
      :- Require(t < |txs| && (txs[t].kind == Purchase || txs[t].kind == Deposit), NotFound);
      var tx := txs[t];
      var moneyIn := tx.kind == Deposit || tx.installment.Some? || tx.completes.Some?;
      :- Require(tx.from.Some? || moneyIn, InvalidRequest);
      if tx.status == Completed {
        if tx.completes.Some? {
          o := CompleteSupportTopUp(t, today);
          return;
        }
        return Done;
      }
      :- Require(tx.status != Reversed, InvalidRequest);
      :- Require(tx.expires.Some? ==> tx.expires.value >= now, Gone);
      if !paid {
        return Done;
      }
      if tx.completes.Some? {
        o := CompleteSupportTopUp(t, today);
        return;
      }
      if moneyIn {
        o := ReceiveVerifiedMoney(t);
        return;
      }
      :- Require(tx.to.Some?, NotFound);
      :- Require(tx.from.value < |wallets| && tx.to.value < |wallets|, NotFound);
      :- Require(!wallets[tx.from.value].closed && !wallets[tx.to.value].closed, WalletClosed);
      o := SettleCreditFundedPurchase(t, None, today);
    }

    // ---- Refunds ----

    /** Cancels the unpaid rows of a purchase's plan in place. */
    method CancelForPurchase(p: TxId)
      modifies this`installments
      ensures installments == CancelPlan(old(installments), p)
    {
      ghost var before := installments;
      var count := |installments|;
      for n := 0 to count
        invariant |installments| == count
        invariant forall k :: n <= k < count ==> installments[k] == before[k]
        invariant forall k :: 0 <= k < n ==> installments[k] == CancelPlan(before, p)[k]
      {
        var row := installments[n];
        if row.purchase == p && Unpaid(row) {
          installments := installments[n := row.(status := InstallmentStatus.Canceled)];
        }
      }
    }

    method ReverseCompleted(p: TxId, key: string) returns (o: Outcome)
      requires p < |txs|
      modifies this
      ensures Did(o, RefundCompleted(old(Tables()), p, key), Tables())
      ensures forall v: WalletId :: Drift(v) == old(Drift(v))
      ensures o.Failed? ==> SameBalances(old(journal), journal)
    {
      hide Insert, PostReceivable, Post, UnpaidDraw, FundingRepository, CancelPlan, Balance, HasPlan, FindKey,
        MultiLegs, Own;
      var original, seen := txs[p], Tables();
      :- Require(original.from.Some? && original.to.Some?, NotFound);
      var customer, merchant := original.from.value, original.to.value;
      :- Require(customer < |wallets| && merchant < |wallets|, NotFound);
      var unpaid := UnpaidDraw(seen, p);
      var givesBack := FindKey(txs, CreditFund(p)).Some? && unpaid > 0;
      :- Require(Balance(journal, merchant) - original.amount >= 0, InsufficientBalance);
      var r := FundingRepository(seen, p, customer);
      :- Require(r < |wallets|, NotFound);
      if givesBack {
        wallets := wallets[customer := wallets[customer].(virtualAmount := wallets[customer].virtualAmount + unpaid)];
        :- Save(Row(Transfer, Completed, Some(customer), Some(r), unpaid, CreditFundReverse(p)));
        :- Save(Row(Virtual, Completed, None, Some(customer), unpaid, CreditDrawReverse(p)));
      }
      if HasPlan(installments, p) {
        CancelForPurchase(p);
        :- PostCreditReceivable(p, customer, if unpaid > 0 then -unpaid else 0);
      }
      txs := txs[p := txs[p].(status := Reversed)];
      var tx := |txs|;
      :- Save(RefundRow(merchant, customer, original.amount, p, key));
      o := PostEntry(tx, MultiLegs([Movement(Own(seen, merchant), original.amount)],
                                   [Movement(Own(seen, customer), original.amount - unpaid)]
                                   + if givesBack then [Movement(Own(seen, r), unpaid)] else []));
    }

    method ReverseTransaction(user: nat, p: TxId, key: string) returns (o: Outcome)
      modifies this
      ensures Did(o, Refund(old(Tables()), user, p, key), Tables())
      ensures forall v: WalletId :: Drift(v) == old(Drift(v))
      ensures o.Failed? ==> SameBalances(old(journal), journal)
    {
      hide RefundCompleted;
      :- Require(p < |txs| && txs[p].kind == Purchase, NotFound);
      :- Require(OwnsEitherSide(Tables(), user, txs[p]), Forbidden);
      :- Require(txs[p].status != Reversed, Conflict);
      if txs[p].status == Awaiting {
        txs := txs[p := txs[p].(status := Reversed)];
        return Done;
      }
      o := ReverseCompleted(p, key);
    }

    // ---- Withdrawals, transfers, adjustments ----

    method WithdrawMoney(user: nat, w: WalletId, amount: int, cleared: bool, key: string) returns (o: Outcome)
      modifies this
      ensures Did(o, WithdrawFrom(old(Tables()), user, w, amount, cleared, key), Tables())
      ensures o.Done? && Inv(old(Tables())) ==>
                && Inv(Tables()) && w < |old(wallets)|
                && forall v: WalletId ::
                    Balance(journal, v) == Balance(old(journal), v) - Shift(old(Tables()), w, amount, v)
      ensures forall v: WalletId :: Drift(v) == old(Drift(v))
      ensures o.Failed? ==> SameBalances(old(journal), journal)
    {
      hide Insert, Post, Balance, Inv, Shift, SameLines, Against, Own;
      ghost var before := Tables();
      :- Require(w < |wallets|, NotFound);
      var wallet := wallets[w];
      :- Require(wallet.user == user, Forbidden);
      :- Require(!wallet.closed, WalletClosed);
      :- Require(!wallet.blocked, WalletBlocked);
      :- Require(!wallet.typ.supportsAutoWithdraw, Forbidden);
      :- Require(wallet.typ.allowWithdraw, NotSupported);
      :- Require(Balance(journal, w) - amount >= 0, InsufficientBalance);
      :- AssertRepositoryCanFund(w, amount);
      var tx := |txs|;
      :- Save(Row(Withdraw, Completed, Some(w), None, amount, Client(key)).(cleared := cleared));
      var holder := LedgerHolder(Tables(), w);
      assert holder.Ok?;
      :- PostEntry(tx, Against(holder.value, -amount, CashAccount(cleared)));
      InsertedPositive(before, Row(Withdraw, Completed, Some(w), None, amount, Client(key)).(cleared := cleared));
      MirrorGoes(Tables(), tx, w, -amount);
      o := PostMirror(tx, w, -amount);
      if o.Done? && Inv(before) {
        WithdrawKeeps(before, user, w, amount, cleared, key);
      }
    }

    method AssertRepositoryCanFund(w: WalletId, amount: int) returns (o: Outcome)
      requires w < |wallets|
      ensures o == match RepositoryCanFund(Tables(), w, amount)
                   case Pass => Done
                   case Stop(error) => Failed(error)
    {
      if wallets[w].repository.None? {
        return Done;
      }
      var r := wallets[w].repository.value;
      :- Require(r < |wallets|, NotFound);
      :- Require(Balance(journal, r) - amount >= 0, RepositoryShort);
      return Done;
    }

    method TransferMoney(user: nat, from: WalletId, to: WalletId, amount: int, key: string) returns (o: Outcome)
      modifies this
      ensures Did(o, TransferTo(old(Tables()), user, from, to, amount, key), Tables())
      ensures o.Done? && Inv(old(Tables())) ==>
                && Inv(Tables()) && from < |old(wallets)|
                && forall v: WalletId :: Balance(journal, v)
                     == Balance(old(journal), v) - Shift(old(Tables()), from, amount, v) + if v == to then amount else 0
      ensures forall v: WalletId :: Drift(v) == old(Drift(v))
      ensures o.Failed? ==> SameBalances(old(journal), journal)
    {
      hide Insert, Post, Balance, Inv, Shift, SameLines, WalletToWallet, Own;
      ghost var before := Tables();
      :- Require(from < |wallets|, NotFound);
      var source := wallets[from];
      :- Require(source.user == user, Forbidden);
      :- Require(!source.closed, WalletClosed);
      :- Require(!source.blocked, WalletBlocked);
      :- Require(source.typ.allowP2pOut, NotSupported);
      :- Require(to < |wallets|, NotFound);
      var target := wallets[to];
      :- Require(target.user != user, InvalidRequest);
      :- Require(target.typ.allowP2pIn && !target.closed && target.typ.currency == source.typ.currency, NotFound);
      :- Require(Balance(journal, from) - amount >= 0, InsufficientBalance);
      :- AssertRepositoryCanFund(from, amount);
      var tx := |txs|;
      :- Save(Row(Transfer, Completed, Some(from), Some(to), amount, Client(key)));
      var holder := LedgerHolder(Tables(), from);
      assert holder.Ok?;
      :- PostEntry(tx, WalletToWallet(holder.value, Own(Tables(), to), amount));
      InsertedPositive(before, Row(Transfer, Completed, Some(from), Some(to), amount, Client(key)));
      MirrorGoes(Tables(), tx, from, -amount);
      o := PostMirror(tx, from, -amount);
      if o.Done? && Inv(before) {
        TransferKeeps(before, user, from, to, amount, key);
      }
    }

    method AdjustBalance(w: WalletId, amount: int, key: string) returns (o: Outcome)
      modifies this
      ensures Did(o, Adjust(old(Tables()), w, amount, key), Tables())
      ensures o.Done? && Inv(old(Tables())) ==>
                && Inv(Tables())
                && forall v: WalletId :: Balance(journal, v) == Balance(old(journal), v) + if v == w then amount else 0
      ensures forall v: WalletId :: Drift(v) == old(Drift(v))
      ensures o.Failed? ==> SameBalances(old(journal), journal)
    {
      hide Insert, Post, Balance, Inv, SameLines;
      ghost var before := Tables();
      :- Require(amount != 0, InvalidRequest);
      :- Require(w < |wallets|, NotFound);
      :- Require(!wallets[w].closed, WalletClosed);
      :- Require(Balance(journal, w) + amount >= 0, InsufficientBalance);
      var tx := |txs|;
      :- Save(Row(Adjustment, Completed, if amount < 0 then Some(w) else None, if amount >= 0 then Some(w) else None,
                  Abs(amount), Client(key)));
      o := PostEntry(tx, Against(Own(Tables(), w), amount, LedgerAdjustments));
      if o.Done? && Inv(before) {
        AdjustKeeps(before, w, amount, key);
      }
    }

    // ---- The repository's side of a credit line ----

    /** The repository absorbs what a wallet owes; only the routed slices move real money. */
    method CollectFromRepository(w: WalletId, quit: bool, key: string) returns (o: Outcome)
      modifies this
      ensures Did(o, WriteOff(old(Tables()), w, quit, key), Tables())
      ensures forall v: WalletId :: Drift(v) == old(Drift(v))
      ensures o.Failed? ==> SameBalances(WriteOffStop(old(Tables()), w, quit, key), journal)
    {
      hide Insert, Post, Balance, Route, MarkAllPaid, Parts, RepaymentSplit, OutstandingRows;
      :- Require(w < |wallets|, NotFound);
      var wallet := wallets[w];
      :- Require(quit || wallet.blocked, InvalidRequest);
      :- Require(wallet.repository.Some?, InvalidRequest);
      var r := wallet.repository.value;
      :- Require(r < |wallets|, NotFound);
      var outstanding := OutstandingRows(installments, w);
      :- Require(|outstanding| > 0, NothingOutstanding);
      var split := ComputeRepaymentSplit(outstanding);
      var unblockFee := if quit then 0 else wallet.typ.terms.unblockFee;
      var seen := Tables();
      var unrouted, routedLegs;
      o, unrouted, routedLegs :=
        CreditFeeSplitLegs(r, Parts(wallet.typ.terms, split.fee, split.penalty, unblockFee), true,
                           if quit then OfQuit(key) else OfOverdue(key));
      if o.Failed? {
        return;
      }
      var total := split.fee + split.penalty + unblockFee;
      var routedTotal := total - unrouted;
      :- Require(Balance(journal, r) - routedTotal >= 0, RepositoryShort);
      var tx := |txs|;
      :- Save(Row(Adjustment, Completed, Some(r), None, total, Client(key)));
      if |routedLegs| > 0 {
        :- PostEntry(tx, MultiLegs([Movement(Own(Tables(), r), routedTotal)], routedLegs));
      }
      o := MarkAllPaidAndUnblock(w, tx);
    }

    /** Part of the repository's pool becomes the ceiling of a new credit wallet. */
    method GrantCreditWallet(user: nat, r: WalletId, person: nat, typ: WalletType, amount: int, key: string)
        returns (o: Outcome)
      modifies this
      ensures Did(o, GrantCredit(old(Tables()), user, r, person, typ, amount, key), Tables())
      ensures forall v: WalletId :: Drift(v) == old(Drift(v))
      ensures journal == old(journal)
    {
      hide Insert;
      :- Require(r < |wallets|, NotFound);
      var repository := wallets[r];
      :- Require(repository.user == user, Forbidden);
      :- Require(repository.typ.code == Repository, InvalidRequest);
      :- Require(!repository.closed, WalletClosed);
      :- Require(typ.code == CreditLine && typ.currency == repository.typ.currency, InvalidRequest);
      :- Require(amount <= repository.virtualAmount, PoolExceeded);
      var w := |wallets|;
      wallets := wallets[r := repository.(virtualAmount := repository.virtualAmount - amount)];
      wallets := wallets + [Wallet(typ, person, Some(r), amount, false, false, None)];
      o := Save(Row(Virtual, Completed, Some(r), Some(w), amount, Client(key)));
    }

    /** What is left of the ceiling goes back to the pool, and the line is closed. */
    method CloseCreditWalletAndReclaim(w: WalletId, key: string) returns (o: Outcome)
      modifies this
      ensures Did(o, CloseAndReclaim(old(Tables()), w, key), Tables())
      ensures forall v: WalletId :: Drift(v) == old(Drift(v))
      ensures journal == old(journal)
    {
      hide Insert, Balance, OutstandingRows;
      :- Require(w < |wallets|, NotFound);
      var wallet := wallets[w];
      :- Require(wallet.typ.code == CreditLine, InvalidRequest);
      :- Require(!wallet.closed, WalletClosed);
      :- Require(wallet.repository.Some?, InvalidRequest);
      :- Require(|OutstandingRows(installments, w)| == 0, StillOwing);
      :- Require(Balance(journal, w) == 0, StillOwing);
      var reclaimed, r := wallet.virtualAmount, wallet.repository.value;
      if reclaimed > 0 {
        :- Require(r < |wallets|, NotFound);
        wallets := wallets[r := wallets[r].(virtualAmount := wallets[r].virtualAmount + reclaimed)];
        wallets := wallets[w := wallets[w].(virtualAmount := 0)];
        :- Save(Row(Virtual, Completed, Some(w), Some(r), reclaimed, Client(key)));
      }
      wallets := wallets[w := wallets[w].(closed := true)];
      return Done;
    }

    // ---- Payouts ----

    method PayFee(payer: Payer, fee: int, key: Key, purchase: Option<TxId>) returns (o: Outcome)
      requires payer.wallet < |wallets| && payer.feeRepository.Some? && payer.feeRepository.value < |wallets|
      modifies this`txs, this`journal, this`events
      ensures Did(o, PayOutFee(old(Tables()), payer, fee, key, purchase), Tables()) && old(txs) <= txs
      ensures forall v: WalletId :: Drift(v) == old(Drift(v))
      ensures o.Failed? ==> journal == old(journal)
    {
      hide Insert, Post;
      var target, tx := payer.feeRepository.value, |txs|;
      :- Save(Row(Transfer, Completed, Some(payer.wallet), Some(target), fee, PayoutFee(key)).(related := purchase));
      o := PostEntry(tx, WalletToWallet(Own(Tables(), payer.wallet), Own(Tables(), target), fee));
    }

    method PayNetAmount(payer: Payer, net: int, key: Key, purchase: Option<TxId>) returns (o: Outcome)
      requires payer.wallet < |wallets|
      modifies this`txs, this`journal, this`events
      ensures Did(o, PayNet(old(Tables()), payer, net, key, purchase), Tables()) && old(txs) <= txs
      ensures forall v: WalletId :: Drift(v) == old(Drift(v))
      ensures o.Failed? ==> journal == old(journal)
    {
      hide Insert, Post;
      var tx := |txs|;
      var cleared := payer.rail.None? || tx !in payer.failed;
      :- Save(Row(Withdraw, Completed, Some(payer.wallet), None, net, key).(related := purchase, cleared := cleared));
      o := PostEntry(tx, Against(Own(Tables(), payer.wallet), -net, CashAccount(cleared)));
    }

    method PayOutOnce(payer: Payer, amount: int, key: Key, purchase: Option<TxId>) returns (o: Outcome)
      requires payer.wallet < |wallets| && (payer.feeRepository.Some? ==> payer.feeRepository.value < |wallets|)
      modifies this`txs, this`journal, this`events
      ensures Did(o, PayOut(old(Tables()), payer, amount, key, purchase), Tables()) && old(txs) <= txs
      ensures forall v: WalletId :: Drift(v) == old(Drift(v))
      ensures o.Failed? ==> SameBalances(PayOutStop(old(Tables()), payer, amount, key, purchase), journal)
    {
      hide PayOutFee, PayNet;
      var fee := if payer.feeRepository.Some? then WithdrawalFee(payer.rate, amount) else 0;
      if fee > 0 {
        :- PayFee(payer, fee, key, purchase);
      }
      if amount - fee > 0 {
        :- PayNetAmount(payer, amount - fee, key, purchase);
      }
      return Done;
    }

    method PayAllSlices(payer: Payer, p: TxId, slices: seq<int>) returns (o: Outcome)
      requires payer.wallet < |wallets| && (payer.feeRepository.Some? ==> payer.feeRepository.value < |wallets|)
      modifies this`txs, this`journal, this`events
      ensures Did(o, PaySlices(old(Tables()), payer, p, slices), Tables())
      ensures old(txs) <= txs
      ensures forall v: WalletId :: Drift(v) == old(Drift(v))
      ensures o.Failed? ==> SameBalances(PaySlicesStop(old(Tables()), payer, p, slices), journal)
    {
      hide PayOut, PayOutStop, Balance;
      ghost var before := Tables();
      for index := 0 to |slices|
        invariant PaySlices(before, payer, p, slices[..index]) == Ok(Tables()) && before.txs <= txs
        invariant forall v: WalletId :: Drift(v) == old(Drift(v))
      {
        assert slices[..index + 1][..index] == slices[..index];
        PayingFailsLater(before, payer, p, slices, index + 1);
        o := PayOutOnce(payer, slices[index], SweepSlice(payer.wallet, p, index, payer.minute), Some(p));
        if o.Failed? {
          return;
        }
      }
      assert slices[..|slices|] == slices;
      return Done;
    }

    /** Pays out purchase by purchase, as long as the balance the sweep began with lasts. */
    method SweepUnsettledPurchases(payer: Payer, balance: int) returns (o: Outcome)
      requires payer.wallet < |wallets| && (payer.feeRepository.Some? ==> payer.feeRepository.value < |wallets|)
      modifies this`txs, this`journal, this`events
      ensures match SweepPurchases(old(Tables()), payer, old(|txs|), balance)
              case Ok(swept) => o.Done? && Tables() == swept.state
              case Fail(error) => o == Failed(error)
      ensures forall v: WalletId :: Drift(v) == old(Drift(v))
      ensures o.Failed? ==> SameBalances(SweepPurchasesStop(old(Tables()), payer, old(|txs|), balance), journal)
    {
      hide PaySlices, SlicesOf, PaySlicesStop, Balance, Drift;
      ghost var before := Tables();
      var unsettled, seen := txs, Tables();
      var remainingBalance := balance;
      for p := 0 to |unsettled|
        invariant |unsettled| <= |txs|
        invariant SweepPurchases(before, payer, p, balance) == Ok(Swept(Tables(), remainingBalance))
        invariant forall v: WalletId :: Drift(v) == old(Drift(v))
      {
        SweepingFailsLater(before, payer, p + 1, balance);
        if !Unsettled(unsettled[p], payer.wallet) {
          continue;
        }
        var slices := SlicesOf(seen, p, payer.wallet);
        var total := SumOf(slices);
        if total > remainingBalance {
          continue;
        }
        remainingBalance := remainingBalance - total;
        o := PayAllSlices(payer, p, slices);
        if o.Failed? {
          return;
        }
        txs := txs[p := txs[p].(settled := true)];
      }
      return Done;
    }

    method SweepAutoWithdraw(w: WalletId, minute: nat, failed: set<TxId>) returns (o: Outcome)
      modifies this
      ensures Did(o, SweepWallet(old(Tables()), w, minute, failed), Tables())
      ensures forall v: WalletId :: Drift(v) == old(Drift(v))
      ensures o.Failed? ==> SameBalances(SweepStop(old(Tables()), w, minute, failed), journal)
    {
      hide SweepPurchases, PayOut, SplitMode, Balance, PayerFor;
      :- Require(w < |wallets|, NotFound);
      :- Require(wallets[w].typ.supportsAutoWithdraw, NotSupported);
      var balance := Balance(journal, w);
      if balance <= 0 {
        return Done;
      }
      var payer := PayerFor(Tables(), w, minute, failed);
      if payer.Fail? {
        return Failed(payer.error);
      }
      if SplitMode(Tables(), w) {
        o := SweepUnsettledPurchases(payer.value, balance);
      } else {
        o := PayOutOnce(payer.value, balance, Sweep(w, minute), None);
      }
    }

    // ---- The daily sweeps ----

    /** Charges every row the days not charged yet and remembers each wallet's most overdue installment. */
    method ChargePenalties(today: int) returns (maxDaysOverdue: map<WalletId, int>)
      modifies this`installments
      ensures installments == ApplyPenalties(old(Tables()), today).installments
      ensures MostOverdue(old(Tables()), maxDaysOverdue, |installments|, today)
    {
      hide MostOverdue, AccrueRow, PastDeadline;
      ghost var before := Tables();
      var count := |installments|;
      maxDaysOverdue := map[];
      NoneOverdue(before, today);
      for n := 0 to count
        invariant |installments| == count
        invariant forall k :: n <= k < count ==> installments[k] == before.installments[k]
        invariant forall k :: 0 <= k < n ==> installments[k] == AccrueRow(before, before.installments[k], today)
        invariant MostOverdue(before, maxDaysOverdue, n, today)
      {
        var row := installments[n];
        NextOverdue(before, maxDaysOverdue, n, today);
        AccruedRow(before, row, today);
        if row.wallet >= |wallets| || !PastDeadline(row, today) {
          continue;
        }
        var charged := ChargeRow(row, wallets[row.wallet].typ.terms.penaltyMilli, today);
        installments := installments[n := charged];
        var known := if row.wallet in maxDaysOverdue then maxDaysOverdue[row.wallet] else 0;
        maxDaysOverdue := maxDaysOverdue[row.wallet := Max(known, today - row.deadline)];
      }
    }

    method ChargeRow(row: Installment, penaltyMilli: nat, today: int) returns (charged: Installment)
      requires PastDeadline(row, today)
      ensures charged == Accrue(row, penaltyMilli, today)
    {
      charged := row;
      var daysOverdue := today - row.deadline;
      var owedDays := daysOverdue - row.penaltyDays;
      var alreadyOverdue := row.status == Overdue;
      if owedDays > 0 {
        var dailyPenalty := PercentOf(row.principal, penaltyMilli);
        charged := charged.(amount := row.amount + dailyPenalty * owedDays);
        charged := charged.(penaltyDays := daysOverdue, penaltyApplied := true, status := Overdue);
      } else if !alreadyOverdue {
        charged := charged.(penaltyApplied := true, status := Overdue);
      }
    }

    /** Charges, then blocks the wallets whose most overdue installment exceeds what their type allows. */
    method ApplyOverduePenalties(today: int)
      modifies this`installments, this`wallets
      ensures Tables() == ApplyPenalties(old(Tables()), today)
    {
      hide MostOverdue, AccrueRow, TooLate;
      ghost var before := Tables();
      var maxDaysOverdue := ChargePenalties(today);
      for w := 0 to |wallets|
        invariant |wallets| == |before.wallets| && installments == ApplyPenalties(before, today).installments
        invariant forall v :: w <= v < |wallets| ==> wallets[v] == before.wallets[v]
        invariant forall v :: 0 <= v < w ==> wallets[v] == ApplyPenalties(before, today).wallets[v]
      {
        var threshold := wallets[w].typ.terms.overdueDaysBeforeBlock;
        MaximumDecides(before, maxDaysOverdue, w, today);
        if w in maxDaysOverdue && !wallets[w].blocked && threshold.Some? && maxDaysOverdue[w] > threshold.value {
          wallets := wallets[w := wallets[w].(blocked := true)];
        }
      }
    }

    method CheckDueInstallments(today: int)
      modifies this`installments
      ensures Tables() == CheckDue(old(Tables()), today)
    {
      ghost var before := Tables();
      var count := |installments|;
      for n := 0 to count
        invariant |installments| == count
        invariant forall k :: n <= k < count ==> installments[k] == before.installments[k]
        invariant forall k :: 0 <= k < n ==> installments[k] == DueRow(before, before.installments[k], today)
      {
        var row := installments[n];
        if row.status != Pending || today < row.due || row.dueChecked {
          continue;
        }
        row := row.(dueChecked := true);
        if row.purchase < |txs| && txs[row.purchase].status == Reversed {
          row := row.(status := InstallmentStatus.Canceled);
        }
        installments := installments[n := row];
      }
    }

    // ---- One request, one database transaction ----

    /** Requests that insert or flag a single row. */
    method Apply(r: Result<State>) returns (o: Outcome)
      requires r.Ok? ==> r.value.journal == journal
      modifies this
      ensures Did(o, r, Tables()) && journal == old(journal) && events == old(events)
    {
      if r.Fail? {
        return Failed(r.error);
      }
      wallets, txs, installments, journal := r.value.wallets, r.value.txs, r.value.installments, r.value.journal;
      overrides, defaults, supportTypes := r.value.overrides, r.value.defaults, r.value.supportTypes;
      return Done;
    }

    method SaveRows(op: Op) returns (o: Outcome)
      requires PostsNothing(op)
      modifies this
      ensures Did(o, Step(old(Tables()), op), Tables()) && journal == old(journal) && events == old(events)
    {
      hide Step;
      OnlyRows(Tables(), op);
      o := Apply(Step(Tables(), op));
    }

    method DispatchRows(op: Op) returns (o: Outcome)
      requires PostsNothing(op)
      modifies this
      ensures Did(o, Step(old(Tables()), op), Tables())
      ensures journal == old(journal) && forall v: WalletId :: Drift(v) == old(Drift(v))
    {
      hide GrantCredit, CloseAndReclaim, ApplyPenalties, CheckDue, AttachWallet, OpenRepayment, OpenCollection,
        OpenTopUp, OpenDeposit, OpenPurchase, OpenCharge, ReplaceDefaults, CloseWallet, ReopenWallet, ExpirePending,
        Balance, Drift;
      if op.OpGrant? {
        o := GrantCreditWallet(op.user, op.repository, op.person, op.typ, op.amount, op.key);
      } else if op.OpReclaim? {
        o := CloseCreditWalletAndReclaim(op.wallet, op.key);
      } else if op.OpPenalties? {
        ApplyOverduePenalties(op.day);
        o := Done;
      } else if op.OpDueCheck? {
        CheckDueInstallments(op.day);
        o := Done;
      } else {
        o := SaveRows(op);
      }
    }

    method Dispatch(op: Op) returns (o: Outcome)
      modifies this
      ensures Did(o, Step(old(Tables()), op), Tables())
      ensures forall v: WalletId :: Drift(v) == old(Drift(v))
      ensures o.Failed? ==> SameBalances(StopAt(old(Tables()), op), journal)
    {
      hide WithdrawFrom, TransferTo, Adjust, Verify, WriteOff, Refund, SweepWallet, VerifyStop, WriteOffStop, SweepStop,
        Inv, Shift, Balance, Drift;
      if PostsNothing(op) {
        hide Step;
        o := DispatchRows(op);
        return;
      }
      match op
      case OpWithdraw(user, w, amount, cleared, key) => o := WithdrawMoney(user, w, amount, cleared, key);
      case OpTransfer(user, from, to, amount, key) => o := TransferMoney(user, from, to, amount, key);
      case OpAdjust(w, amount, key) => o := AdjustBalance(w, amount, key);
      case OpVerify(tx, paid, now, today) => o := VerifyPurchase(tx, paid, now, today);
      case OpWriteOff(w, quit, key) => o := CollectFromRepository(w, quit, key);
      case OpRefund(user, tx, key) => o := ReverseTransaction(user, tx, key);
      case OpSweep(w, minute, failed) => o := SweepAutoWithdraw(w, minute, failed);
    }

    /** Runs a request and undoes everything it did if it throws. */
    method Execute(op: Op) returns (o: Outcome)
      modifies this
      ensures Tables() == Next(old(Tables()), op)
      ensures o.Done? <==> Step(old(Tables()), op).Ok?
      ensures Inv(old(Tables())) && Safe(old(Tables()), op) ==> Inv(Tables())
      ensures o.Failed? ==> Tables() == old(Tables())
      ensures forall v: WalletId :: Drift(v) == old(Drift(v)) + Leak(old(Tables()), op, v)
    {
      hide Step, Inv, Safe, SameLines, StopAt, Balance;
      var before := Tables();
      o := Dispatch(op);
      ghost var thrown := journal;
      if o.Failed? {
        wallets, txs, installments, journal := before.wallets, before.txs, before.installments, before.journal;
        overrides, defaults, supportTypes := before.overrides, before.defaults, before.supportTypes;
        assert SameBalances(StopAt(before, op), thrown);
      } else if Inv(before) && Safe(before, op) {
        StepKeepsExactly(before, op);
      }
    }

    /** A freshly installed system after any number of requests: all books agree if they were safe, money is
        sound as long as no charge was split badly, and the feed is off by what failed requests had posted. */
    method ExecuteAll(ops: seq<Op>)
      modifies this
      ensures Tables() == Run(old(Tables()), ops)
      ensures Fresh(old(Tables())) && SafeRun(old(Tables()), ops) ==> BooksAgree(Tables())
      ensures Fresh(old(Tables())) && AllSplitWell(ops) ==>
                Balanced(journal) && forall w: WalletId :: Balance(journal, w) >= 0
      ensures forall v: WalletId :: Drift(v) == old(Drift(v)) + LeakOver(old(Tables()), ops, v)
      ensures Fresh(old(Tables())) && old(events) == [] ==>
                ((forall v: WalletId :: Drift(v) == 0) <==> (forall v: WalletId :: LeaksCancel(old(Tables()), ops, v)))
    {
      hide Next, Inv, Safe, SafeRun, AllSplitWell, Fresh, BooksAgree, Run, Balance, Leak, Drift;
      NothingRun(Tables(), ops);
      for n := 0 to |ops|
        invariant Tables() == Run(old(Tables()), ops[..n])
        invariant forall v: WalletId :: Drift(v) == old(Drift(v)) + LeakOver(old(Tables()), ops[..n], v)
      {
        assert ops[..n + 1][..n] == ops[..n];
        var _ := Execute(ops[n]);
        RunSnoc(old(Tables()), ops, n);
      }
      assert ops[..|ops|] == ops;
      if Fresh(old(Tables())) && SafeRun(old(Tables()), ops) {
        BooksAgreeAlways(old(Tables()), ops);
      }
      if Fresh(old(Tables())) && AllSplitWell(ops) {
        MoneyIsSoundAlways(old(Tables()), ops);
      }
      if Fresh(old(Tables())) && old(events) == [] {
        forall v: WalletId ensures Drift(v) == 0 <==> LeaksCancel(old(Tables()), ops, v) {
          FreshDrift(v);
        }
      }
    }

    twostate lemma FreshDrift(v: WalletId)
      requires Fresh(old(Tables())) && old(events) == []
      ensures old(Drift(v)) == 0
    {
      SumZero(old(journal), OverLegs(BalanceIn(v)));
    }
  }

  lemma {:induction false} MirrorGoes(s: State, tx: TxId, w: WalletId, delta: int)
    requires w < |s.wallets|
    ensures Mirror(s, tx, w, delta).Ok?
  {
    if delta != 0 {
      AgainstEffect(Own(s, w), delta, RepositoryAllocations);
      AcceptsExactly(Against(Own(s, w), delta, RepositoryAllocations));
    }
  }

  lemma {:induction false} InsertedPositive(s: State, t: Tx)
    ensures Insert(s, t).Ok? ==> t.amount > 0
  {
  }

  predicate PostsNothing(op: Op) {
    !(op.OpWithdraw? || op.OpTransfer? || op.OpAdjust? || op.OpVerify? || op.OpWriteOff? || op.OpRefund? || op.OpSweep?)
  }

  lemma {:induction false} OnlyRows(s: State, op: Op)
    requires PostsNothing(op)
    ensures Step(s, op).Ok? ==> Step(s, op).value.journal == s.journal
  {
    hide FindKey, OutstandingRows, Balance, ValidChargeOverrides, ValidWalletDefaults, AccrueRow, TooLate, DueRow;
  }

  lemma {:induction false} NothingRun(s: State, ops: seq<Op>)
    ensures Run(s, ops[..0]) == s
  {
  }

  lemma {:induction false} RunSnoc(s: State, ops: seq<Op>, n: nat)
    requires n < |ops|
    ensures Run(s, ops[..n + 1]) == Next(Run(s, ops[..n]), ops[n])
  {
    hide Next;
    assert ops[..n + 1][..n] == ops[..n];
  }

  predicate PastDeadline(i: Installment, today: int) {
    Unpaid(i) && i.deadline < today
  }

  /** Row `k` of wallet `w` is `days` past its deadline. */
  predicate OverdueBy(s: State, k: nat, w: WalletId, days: int, today: int) {
    && k < |s.installments| && PastDeadline(s.installments[k], today) && s.installments[k].wallet == w
    && today - s.installments[k].deadline == days
  }

  /** The map built by the first loop: for every wallet with an installment past its deadline among the
      first `n`, the days of the most overdue one. */
  ghost predicate MostOverdue(s: State, days: map<WalletId, int>, n: nat, today: int)
    requires n <= |s.installments|
  {
    && (forall k: nat, w: WalletId, d: int :: k < n && w < |s.wallets| && OverdueBy(s, k, w, d, today) ==>
        w in days && d <= days[w])
    && (forall w :: w in days ==> exists k :: 0 <= k < n && OverdueBy(s, k, w, days[w], today))
  }

  lemma {:induction false} NoneOverdue(s: State, today: int)
    ensures MostOverdue(s, map[], 0, today)
  {
  }

  lemma {:induction false} AccruedRow(s: State, row: Installment, today: int)
    ensures AccrueRow(s, row, today)
         == if row.wallet >= |s.wallets| || !PastDeadline(row, today) then row
            else Accrue(row, s.wallets[row.wallet].typ.terms.penaltyMilli, today)
  {
  }

  /** One more row: the maximum of its wallet takes it into account. */
  lemma {:induction false} NextOverdue(s: State, days: map<WalletId, int>, n: nat, today: int)
    requires n < |s.installments| && MostOverdue(s, days, n, today)
    ensures var row := s.installments[n];
            if row.wallet >= |s.wallets| || !PastDeadline(row, today) then MostOverdue(s, days, n + 1, today)
            else MostOverdue(s,
                days[row.wallet := Max(if row.wallet in days then days[row.wallet] else 0, today - row.deadline)],
                             n + 1, today)
  {
    var row := s.installments[n];
    if row.wallet < |s.wallets| && PastDeadline(row, today) {
      assert OverdueBy(s, n, row.wallet, today - row.deadline, today);
    }
  }

  /** The maximum exceeds the threshold exactly when some unpaid installment does. */
  lemma {:induction false} MaximumDecides(s: State, days: map<WalletId, int>, w: WalletId, today: int)
    requires w < |s.wallets| && MostOverdue(s, days, |s.installments|, today)
    ensures TooLate(s, w, today) <==>
              && s.wallets[w].typ.terms.overdueDaysBeforeBlock.Some?
              && w in days && days[w] > s.wallets[w].typ.terms.overdueDaysBeforeBlock.value
  {
    if TooLate(s, w, today) {
      var i :| 0 <= i < |s.installments| && s.installments[i].wallet == w && Unpaid(s.installments[i])
               && s.installments[i].deadline < today
               && today - s.installments[i].deadline > s.wallets[w].typ.terms.overdueDaysBeforeBlock.value;
      assert OverdueBy(s, i, w, today - s.installments[i].deadline, today);
    }
  }

  method SumOf(numbers: seq<int>) returns (total: int)
    ensures total == Sum(numbers, Identity())
  {
    total := 0;
    for n := 0 to |numbers|
      invariant total == Sum(numbers[..n], Identity())
    {
      assert numbers[..n + 1][..n] == numbers[..n];
      total := total + numbers[n];
    }
    assert numbers[..|numbers|] == numbers;
  }

  lemma {:induction false} NothingRoutedYet(s: State, main: WalletId, transfer: bool, prefix: SplitPrefix)
    ensures Route(s, main, [], transfer, prefix) == Ok(Routed(s, 0, []))
  {
  }

  lemma {:induction false} RouteNext(s: State, main: WalletId, parts: seq<Part>, n: nat, transfer: bool,
      prefix: SplitPrefix, r: Routed)
    requires n < |parts| && Route(s, main, parts[..n], transfer, prefix) == Ok(r)
    ensures Route(s, main, parts[..n + 1], transfer, prefix) == RouteSlice(r, main, parts[n], transfer, prefix)
  {
    assert parts[..n + 1][..n] == parts[..n];
  }

  /** A slice that fails makes the routing of all slices fail, with the same error. */
  lemma {:induction false} FailsLater(s: State, main: WalletId, parts: seq<Part>, n: nat, transfer: bool,
      prefix: SplitPrefix)
    requires n <= |parts|
    ensures Route(s, main, parts[..n], transfer, prefix).Fail? ==>
              Route(s, main, parts, transfer, prefix) == Fail(Route(s, main, parts[..n], transfer, prefix).error)
    decreases |parts| - n
  {
    if n < |parts| {
      assert parts[..n + 1][..n] == parts[..n];
      FailsLater(s, main, parts, n + 1, transfer, prefix);
    } else {
      assert parts[..n] == parts;
    }
  }

  lemma {:induction false} SettlingFailsLater(s: State, w: WalletId, n: nat, tx: TxId)
    requires n <= |s.installments|
    ensures SettleOutstanding(s, w, n, tx).Fail? ==>
              SettleOutstanding(s, w, |s.installments|, tx) == Fail(SettleOutstanding(s, w, n, tx).error)
    decreases |s.installments| - n
  {
    if n < |s.installments| {
      SettlingFailsLater(s, w, n + 1, tx);
    }
  }

  lemma {:induction false} PayingFailsLater(s: State, payer: Payer, p: TxId, slices: seq<int>, n: nat)
    requires payer.wallet < |s.wallets| && (payer.feeRepository.Some? ==> payer.feeRepository.value < |s.wallets|)
    requires n <= |slices|
    ensures PaySlices(s, payer, p, slices[..n]).Fail? ==>
              && PaySlices(s, payer, p, slices) == Fail(PaySlices(s, payer, p, slices[..n]).error)
              && PaySlicesStop(s, payer, p, slices) == PaySlicesStop(s, payer, p, slices[..n])
    decreases |slices| - n
  {
    if n < |slices| {
      assert slices[..n + 1][..n] == slices[..n];
      PayingFailsLater(s, payer, p, slices, n + 1);
    } else {
      assert slices[..n] == slices;
    }
  }

  lemma {:induction false} SweepingFailsLater(s: State, payer: Payer, n: nat, balance: int)
    requires payer.wallet < |s.wallets| && (payer.feeRepository.Some? ==> payer.feeRepository.value < |s.wallets|)
    requires n <= |s.txs|
    ensures SweepPurchases(s, payer, n, balance).Fail? ==>
              && SweepPurchases(s, payer, |s.txs|, balance) == Fail(SweepPurchases(s, payer, n, balance).error)
              && SweepPurchasesStop(s, payer, |s.txs|, balance) == SweepPurchasesStop(s, payer, n, balance)
    decreases |s.txs| - n
  {
    if n < |s.txs| {
      SweepingFailsLater(s, payer, n + 1, balance);
    }
  }
}
