/** The balance-change feed outlives rollbacks: what a request emitted before it threw stays emitted. */
module Feed {
  import opened Common
  import opened Sums
  import opened Ledger
  import opened Installments
  import opened Settlement
  import opened Bank
  import opened BankInvariant
  import opened MoneyMoves
  import opened Repayments
  import opened Payouts
  import opened History
  import opened Safety

  ghost predicate SameBalances(a: Journal, b: Journal) {
    forall w: WalletId :: Balance(a, w) == Balance(b, w)
  }

  /** A receivable entry moves no balance, so it emits nothing. */
  lemma {:induction false} ReceivableMovesNoBalance(j: Journal, tx: TxId, h: Holder, delta: int)
    ensures delta != 0 ==> SameBalances(j, j + [Entry(tx, ReceivableLegs(h, delta))])
  {
    if delta != 0 {
      ReceivableEffect(h, delta);
      forall w: WalletId ensures Balance(j, w) == Balance(j + [Entry(tx, ReceivableLegs(h, delta))], w) {
        JournalSnoc(j, Entry(tx, ReceivableLegs(h, delta)), BalanceIn(w));
      }
    }
  }

  // ---- How far a request that throws gets ----

  /** The journal with the money a verified deposit or repayment brings in, if it gets that far. */
  function ReceiveStop(s: State, t: TxId): Journal
    requires t < |s.txs|
  {
    var tx := s.txs[t];
    if tx.to.None? || tx.to.value >= |s.wallets| || s.wallets[tx.to.value].closed || !IsRepayment(tx) then s.journal
    else
      var credited := CreditRepayment(s, t, tx.to.value);
      if credited.Ok? then credited.value.journal else s.journal
  }

  /** The journal with a top-up landed on the support wallet. */
  function TopUpStop(s: State, t: TxId): Journal
    requires t < |s.txs| && s.txs[t].completes.Some?
  {
    var p := s.txs[t].completes.value;
    if p >= |s.txs| || p == t || s.txs[p].from.None? || s.txs[p].to.None?
       || s.txs[p].from.value >= |s.wallets| || s.txs[p].to.value >= |s.wallets| then s.journal
    else
      var from := s.wallets[s.txs[p].from.value];
      var landed := LandTopUp(s, t, from.user, from.typ.currency);
      if landed.Ok? then landed.value.0.journal else s.journal
  }

  function VerifyStop(s: State, t: TxId, paid: bool, now: int): Journal {
    if t >= |s.txs| || (s.txs[t].kind != Purchase && s.txs[t].kind != Deposit) then s.journal
    else
      var tx := s.txs[t];
      if tx.status == Reversed || (tx.status == Awaiting && (!paid || (tx.expires.Some? && tx.expires.value < now)))
          then s.journal
      else if tx.completes.Some? then TopUpStop(s, t)
      else if tx.status == Awaiting && (tx.kind == Deposit || tx.installment.Some?) then ReceiveStop(s, t)
      else s.journal
  }

  /** The journal with the slices a write-off routed. */
  function WriteOffStop(s: State, w: WalletId, quit: bool, key: string): Journal {
    var absorbed := Absorb(s, w, quit, key);
    if absorbed.Ok? then absorbed.value.0.journal else s.journal
  }

  /** The journal with a payout's fee. */
  function PayOutStop(s: State, payer: Payer, amount: int, key: Key, purchase: Option<TxId>): Journal
    requires PayerOk(s, payer)
  {
    var fee := FeeOfPayout(payer, amount);
    if fee <= 0 then s.journal
    else
      var paid := PayOutFee(s, payer, fee, key, purchase);
      if paid.Ok? then paid.value.journal else s.journal
  }

  function PaySlicesStop(s: State, payer: Payer, p: TxId, slices: seq<int>): Journal
    requires PayerOk(s, payer)
  {
    if |slices| == 0 then s.journal
    else
      var n := |slices| - 1;
      var before := PaySlices(s, payer, p, slices[..n]);
      if before.Fail? then PaySlicesStop(s, payer, p, slices[..n])
      else PayOutStop(before.value, payer, slices[n], SweepSlice(payer.wallet, p, n, payer.minute), Some(p))
  }

  function SweepPurchasesStop(s: State, payer: Payer, n: nat, balance: int): Journal
    requires PayerOk(s, payer) && n <= |s.txs|
  {
    if n == 0 then s.journal
    else
      var done := SweepPurchases(s, payer, n - 1, balance);
      if done.Fail? then SweepPurchasesStop(s, payer, n - 1, balance)
      else PaySlicesStop(done.value.state, payer, n - 1, SlicesOf(s, n - 1, payer.wallet))
  }

  function SweepStop(s: State, w: WalletId, minute: nat, failed: set<TxId>): Journal {
    if w >= |s.wallets| || !s.wallets[w].typ.supportsAutoWithdraw || Balance(s.journal, w) <= 0
       || PayerFor(s, w, minute, failed).Fail? then s.journal
    else
      var payer := PayerFor(s, w, minute, failed).value;
      if SplitMode(s, w) then SweepPurchasesStop(s, payer, |s.txs|, Balance(s.journal, w))
      else PayOutStop(s, payer, Balance(s.journal, w), Sweep(w, minute), None)
  }

  /** The journal as a request that throws leaves it to its rollback, but for entries that move no balance. */
  function StopAt(s: State, op: Op): Journal {
    match op
    case OpVerify(t, paid, now, today) => VerifyStop(s, t, paid, now)
    case OpWriteOff(w, quit, key) => WriteOffStop(s, w, quit, key)
    case OpSweep(w, minute, failed) => SweepStop(s, w, minute, failed)
    case _ => s.journal
  }

  // ---- What a subscriber sees ----

  /** Everything written by a request, kept or not. */
  function Written(s: State, op: Op): Journal {
    var r := Step(s, op);
    if r.Ok? then r.value.journal else StopAt(s, op)
  }

  /** What a request that throws has told subscribers about a wallet; nothing of it is true afterwards. */
  function Leak(s: State, op: Op, w: WalletId): int {
    if Step(s, op).Ok? then 0 else Balance(StopAt(s, op), w) - Balance(s.journal, w)
  }

  function LeakOver(s: State, ops: seq<Op>, w: WalletId): int {
    if |ops| == 0 then 0
    else LeakOver(s, ops[..|ops| - 1], w) + Leak(Run(s, ops[..|ops| - 1]), ops[|ops| - 1], w)
  }

  function EventsSince(before: Journal, after: Journal): seq<BalanceChanged> {
    if |before| <= |after| then EventsOfJournal(after[|before|..]) else []
  }

  /** The events emitted over a run, failed requests included. */
  function Emitted(s: State, ops: seq<Op>): seq<BalanceChanged> {
    if |ops| == 0 then []
    else
      var init, op := ops[..|ops| - 1], ops[|ops| - 1];
      Emitted(s, init) + EventsSince(Run(s, init).journal, Written(Run(s, init), op))
  }

  lemma {:induction false} EventsSinceFollow(before: Journal, after: Journal, w: WalletId)
    requires before <= after
    ensures Sum(EventsSince(before, after), DeltaFor(w)) == Balance(after, w) - Balance(before, w)
  {
    var more := after[|before|..];
    EventsFollowBalances(more, w);
    assert before + more == after;
    SumConcat(before, more, OverLegs(BalanceIn(w)));
  }

  // ---- A request that throws has only added entries ----

  lemma {:induction false} CreditedGrows(s: State, t: TxId, main: WalletId)
    requires t < |s.txs| && main < |s.wallets| && IsRepayment(s.txs[t]) && CreditRepayment(s, t, main).Ok?
    ensures s.journal <= CreditRepayment(s, t, main).value.journal
  {
    hide Route, ChargeOf, CashInLegs, Accepts;
    var tx := s.txs[t];
    if !(tx.installment.Some? && tx.installment.value >= |s.installments|) {
      var charge := ChargeOf(s, t).value;
      RouteSplits(s, main, charge.parts, false, OfRepayment(t));
    }
  }

  lemma {:induction false} AbsorbedGrows(s: State, w: WalletId, quit: bool, key: string)
    requires Absorb(s, w, quit, key).Ok?
    ensures s.journal <= Absorb(s, w, quit, key).value.0.journal
  {
    hide Route, Parts, RepaymentSplit, OutstandingRows, Accepts, MultiLegs, Balance, FindKey;
    var wallet := s.wallets[w];
    var split := RepaymentSplit(OutstandingRows(s.installments, w));
    var unblockFee := if quit then 0 else wallet.typ.terms.unblockFee;
    RouteSplits(s, wallet.repository.value, Parts(wallet.typ.terms, split.fee, split.penalty, unblockFee), true,
                if quit then OfQuit(key) else OfOverdue(key));
  }

  lemma {:induction false} PayOutWrites(s: State, payer: Payer, amount: int, key: Key, purchase: Option<TxId>)
    requires PayerOk(s, payer)
    ensures s.journal <= PayOutStop(s, payer, amount, key, purchase)
    ensures PayOut(s, payer, amount, key, purchase).Ok?
        ==> s.journal <= PayOut(s, payer, amount, key, purchase).value.journal
  {
    hide PayOutFee, PayNet, WithdrawalFee;
    var fee := FeeOfPayout(payer, amount);
    var s1 := if fee <= 0 then Ok(s) else PayOutFee(s, payer, fee, key, purchase);
    if fee > 0 {
      FeeWrites(s, payer, fee, key, purchase);
    }
    if s1.Ok? {
      NetWrites(s1.value, payer, amount - fee, key, purchase);
    }
  }

  lemma {:induction false} FeeWrites(s: State, payer: Payer, fee: int, key: Key, purchase: Option<TxId>)
    requires PayerOk(s, payer) && payer.feeRepository.Some?
    ensures PayOutFee(s, payer, fee, key, purchase).Ok?
        ==> s.journal <= PayOutFee(s, payer, fee, key, purchase).value.journal
  {
    hide Accepts, WalletToWallet, FindKey;
  }

  lemma {:induction false} NetWrites(s: State, payer: Payer, net: int, key: Key, purchase: Option<TxId>)
    requires PayerOk(s, payer)
    ensures PayNet(s, payer, net, key, purchase).Ok? ==> s.journal <= PayNet(s, payer, net, key, purchase).value.journal
  {
    hide Accepts, Against, FindKey;
  }

  lemma {:induction false} PaySlicesWrite(s: State, payer: Payer, p: TxId, slices: seq<int>)
    requires PayerOk(s, payer)
    ensures s.journal <= PaySlicesStop(s, payer, p, slices)
    ensures PaySlices(s, payer, p, slices).Ok? ==> s.journal <= PaySlices(s, payer, p, slices).value.journal
  {
    hide PayOut, PayOutStop;
    if |slices| > 0 {
      var n := |slices| - 1;
      PaySlicesWrite(s, payer, p, slices[..n]);
      var before := PaySlices(s, payer, p, slices[..n]);
      if before.Ok? {
        PayOutWrites(before.value, payer, slices[n], SweepSlice(payer.wallet, p, n, payer.minute), Some(p));
      }
    }
  }

  lemma {:induction false} SweepPurchasesWrite(s: State, payer: Payer, n: nat, balance: int)
    requires PayerOk(s, payer) && n <= |s.txs|
    ensures s.journal <= SweepPurchasesStop(s, payer, n, balance)
    ensures SweepPurchases(s, payer, n, balance).Ok?
        ==> s.journal <= SweepPurchases(s, payer, n, balance).value.state.journal
  {
    hide PaySlices, PaySlicesStop, SlicesOf;
    if n > 0 {
      SweepPurchasesWrite(s, payer, n - 1, balance);
      var done := SweepPurchases(s, payer, n - 1, balance);
      if done.Ok? {
        PaySlicesWrite(done.value.state, payer, n - 1, SlicesOf(s, n - 1, payer.wallet));
      }
    }
  }

  lemma {:induction false} LandedGrows(s: State, t: TxId, user: nat, currency: CurrencyId)
    requires t < |s.txs| && LandTopUp(s, t, user, currency).Ok?
    ensures s.journal <= LandTopUp(s, t, user, currency).value.0.journal
  {
    hide Accepts, Against, FindSupport;
  }

  lemma {:induction false} StopGrows(s: State, op: Op)
    ensures s.journal <= StopAt(s, op)
  {
    hide LandTopUp, CreditRepayment, Absorb, PayOutStop, SweepPurchasesStop, SplitMode, PayerFor, Balance;
    match op
    case OpVerify(t, paid, now, today) =>
      if t < |s.txs| {
        if s.txs[t].completes.Some? && TopUpStop(s, t) != s.journal {
          var p := s.txs[t].completes.value;
          LandedGrows(s, t, s.wallets[s.txs[p].from.value].user, s.wallets[s.txs[p].from.value].typ.currency);
        }
        if ReceiveStop(s, t) != s.journal {
          CreditedGrows(s, t, s.txs[t].to.value);
        }
      }
    case OpWriteOff(w, quit, key) =>
      if Absorb(s, w, quit, key).Ok? {
        AbsorbedGrows(s, w, quit, key);
      }
    case OpSweep(w, minute, failed) =>
      if SweepStop(s, w, minute, failed) != s.journal {
        var payer := PayerFor(s, w, minute, failed).value;
        SweepPurchasesWrite(s, payer, |s.txs|, Balance(s.journal, w));
        PayOutWrites(s, payer, Balance(s.journal, w), Sweep(w, minute), None);
      }
    case _ =>
  }

  lemma {:induction false} WrittenGrows(s: State, op: Op)
    requires Formed(s)
    ensures s.journal <= Written(s, op) && Formed(Next(s, op))
  {
    hide Formed, Step, StopAt;
    if Step(s, op).Ok? {
      StepGrows(s, op);
    } else {
      StopGrows(s, op);
    }
  }

  // ---- The feed against the balances ----

  /** Over any run a subscriber's fold is off by what the requests that threw had posted, and by nothing else. */
  lemma {:induction false} FeedIsOffByLeaks(s: State, ops: seq<Op>, w: WalletId)
    requires Formed(s)
    ensures Formed(Run(s, ops))
    ensures Sum(Emitted(s, ops), DeltaFor(w))
        == Balance(Run(s, ops).journal, w) - Balance(s.journal, w) + LeakOver(s, ops, w)
  {
    hide Formed, Step, StopAt, Balance, EventsSince;
    if |ops| > 0 {
      var init, op := ops[..|ops| - 1], ops[|ops| - 1];
      FeedIsOffByLeaks(s, init, w);
      var s1 := Run(s, init);
      WrittenGrows(s1, op);
      EventsSinceFollow(s1.journal, Written(s1, op), w);
      SumConcat(Emitted(s, init), EventsSince(s1.journal, Written(s1, op)), DeltaFor(w));
    }
  }

  /** A subscriber that folds everything it was told shows the balance of the wallet. */
  predicate Tracked(s: State, ops: seq<Op>, w: WalletId) {
    Sum(Emitted(s, ops), DeltaFor(w)) == Balance(Run(s, ops).journal, w)
  }

  /** What requests that threw had posted on the wallet adds up to nothing. */
  predicate LeaksCancel(s: State, ops: seq<Op>, w: WalletId) {
    LeakOver(s, ops, w) == 0
  }

  lemma {:induction false} TrackedExactly(s: State, ops: seq<Op>, w: WalletId)
    requires Fresh(s)
    ensures Tracked(s, ops, w) <==> LeaksCancel(s, ops, w)
  {
    hide LeakOver, Run, Emitted, Inv;
    FreshIsSound(s);
    InvFormed(s);
    FeedIsOffByLeaks(s, ops, w);
    SumZero(s.journal, OverLegs(BalanceIn(w)));
  }

  /** The fold of all events equals every balance if and only if the deltas posted by requests that threw
      cancel, wallet by wallet. */
  lemma {:induction false} FeedFollowsExactly(s: State, ops: seq<Op>)
    requires Fresh(s)
    ensures (forall w: WalletId :: Tracked(s, ops, w)) <==> (forall w: WalletId :: LeaksCancel(s, ops, w))
  {
    hide LeaksCancel, Tracked;
    forall w: WalletId ensures Tracked(s, ops, w) <==> LeaksCancel(s, ops, w) {
      TrackedExactly(s, ops, w);
    }
  }
}
