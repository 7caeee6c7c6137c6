/** The payout sweep of a merchant wallet: what leaves it, row by row. */
module Payouts {
  import opened Common
  import opened Sums
  import opened Ledger
  import opened Installments
  import opened Settlement
  import opened Bank
  import opened BankInvariant
  import opened MoneyMoves

  /** What a row takes out of a wallet. */
  function PaidBy(w: WalletId): Tx -> int {
    (t: Tx) => if t.from == Some(w) then t.amount else 0
  }

  function TotalPaid(s: State, w: WalletId): int {
    Sum(s.txs, PaidBy(w))
  }

  predicate PayerOk(s: State, payer: Payer) {
    payer.wallet < |s.wallets| && (payer.feeRepository.Some? ==> payer.feeRepository.value < |s.wallets|)
  }

  /** A payout took `amount` out of the wallet, in rows appended to the others, and nothing out of any
      other wallet. */
  ghost predicate Paid(s: State, s': State, w: WalletId, amount: int, toItself: bool) {
    && Kept(s, s') && s' == s.(txs := s'.txs, journal := s'.journal) && s.txs <= s'.txs
    && TotalPaid(s', w) == TotalPaid(s, w) + amount
    && (forall v: WalletId :: v != w ==> Balance(s'.journal, v) >= Balance(s.journal, v))
    && Balance(s'.journal, w) >= Balance(s.journal, w) - amount
    && (!toItself ==> Balance(s'.journal, w) == Balance(s.journal, w) - amount)
  }

  predicate PaysItself(payer: Payer) {
    payer.feeRepository == Some(payer.wallet)
  }

  lemma {:induction false} PayoutRowOk(s: State, t: Tx)
    requires (t.kind == Transfer || t.kind == Withdraw) && t.status == Completed && t.amount > 0
    requires InTable(t.from, |s.wallets|) && InTable(t.to, |s.wallets|) && !IsRepayment(t) && t.completes.None?
    requires !t.key.CreditFund?
    ensures RowOk(|s.wallets|, |s.installments|, s.txs + [t], |s.txs|)
  {
  }

  function FeeOfPayout(payer: Payer, amount: int): int {
    if payer.feeRepository.Some? then WithdrawalFee(payer.rate, amount) else 0
  }

  /** A row of its own and the entry that moves its money. */
  lemma {:induction false} RowAndMoney(s: State, row: Tx, s': State, w: WalletId)
    requires Inv(s) && row.kind != Virtual && !row.key.CreditFund?
    requires RowOk(|s.wallets|, |s.installments|, s.txs + [row], |s.txs|)
    requires MoneyStep(s.(txs := s.txs + [row]), s')
    ensures Kept(s, s') && s' == s.(txs := s.txs + [row], journal := s'.journal)
    ensures TotalPaid(s', w) == TotalPaid(s, w) + PaidBy(w)(row)
  {
    hide Inv, SameLines, RowOk;
    InsertKeeps(s, row);
    MoneyStepKeeps(s.(txs := s.txs + [row]), s');
    LinesByMoney(s, s');
    SumSnoc(s.txs, row, PaidBy(w));
  }

  lemma {:induction false} PayFee(s: State, payer: Payer, fee: int, key: Key, purchase: Option<TxId>)
    requires Inv(s) && PayerOk(s, payer) && payer.feeRepository.Some? && 0 < fee <= Balance(s.journal, payer.wallet)
    requires PayOutFee(s, payer, fee, key, purchase).Ok?
    ensures Paid(s, PayOutFee(s, payer, fee, key, purchase).value, payer.wallet, fee, PaysItself(payer))
  {
    hide Inv, SameLines, RowOk;
    var w := payer.wallet;
    var row := Row(Transfer, Completed, Some(w), payer.feeRepository, fee, PayoutFee(key)).(related := purchase);
    PayoutRowOk(s, row);
    var u := s.(txs := s.txs + [row]);
    InvMoney(s);
    WalletToWalletStep(u, |s.txs|, w, payer.feeRepository.value, fee);
    RowAndMoney(s, row, PayOutFee(s, payer, fee, key, purchase).value, w);
  }

  lemma {:induction false} PayNetKeeps(s: State, payer: Payer, net: int, key: Key, purchase: Option<TxId>)
    requires Inv(s) && PayerOk(s, payer) && 0 < net <= Balance(s.journal, payer.wallet) && !key.CreditFund?
    requires PayNet(s, payer, net, key, purchase).Ok?
    ensures Paid(s, PayNet(s, payer, net, key, purchase).value, payer.wallet, net, false)
  {
    hide Inv, SameLines, RowOk;
    var w := payer.wallet;
    var cleared := payer.rail.None? || |s.txs| !in payer.failed;
    var row := Row(Withdraw, Completed, Some(w), None, net, key).(related := purchase, cleared := cleared);
    PayoutRowOk(s, row);
    InvMoney(s);
    AgainstStep(s.(txs := s.txs + [row]), |s.txs|, w, -net, CashAccount(cleared));
    RowAndMoney(s, row, PayNet(s, payer, net, key, purchase).value, w);
  }

  lemma {:induction false} PaidThrough(a: State, b: State, c: State, w: WalletId, x: int, y: int, toItself: bool)
    requires Paid(a, b, w, x, toItself) && Paid(b, c, w, y, toItself)
    ensures Paid(a, c, w, x + y, toItself)
  {
    hide Inv, SameLines;
    LinesThrough(a, b, c);
  }

  /** One payout: fee and net are exactly the amount. */
  lemma {:induction false} PayOutKeeps(s: State, payer: Payer, amount: int, key: Key, purchase: Option<TxId>)
    requires Inv(s) && PayerOk(s, payer) && 0 <= amount <= Balance(s.journal, payer.wallet) && !key.CreditFund?
    requires PayOut(s, payer, amount, key, purchase).Ok?
    ensures Paid(s, PayOut(s, payer, amount, key, purchase).value, payer.wallet, amount, PaysItself(payer))
  {
    hide Inv, SameLines, PayOutFee, PayNet, Paid;
    var fee := FeeOfPayout(payer, amount);
    var s1 := if fee > 0 then PayOutFee(s, payer, fee, key, purchase).value else s;
    if fee > 0 {
      PayFee(s, payer, fee, key, purchase);
    } else {
      NothingPaid(s, payer.wallet, PaysItself(payer));
    }
    if amount > fee {
      LeftToPay(s, s1, payer.wallet, amount, fee, PaysItself(payer));
      PayNetKeeps(s1, payer, amount - fee, key, purchase);
      ToOthers(s1, PayOut(s, payer, amount, key, purchase).value, payer.wallet, amount - fee, PaysItself(payer));
      PaidThrough(s, s1, PayOut(s, payer, amount, key, purchase).value, payer.wallet, fee, amount - fee,
          PaysItself(payer));
    }
  }

  lemma {:induction false} NothingPaid(s: State, w: WalletId, toItself: bool)
    requires Inv(s)
    ensures Paid(s, s, w, 0, toItself)
  {
  }

  lemma {:induction false} LeftToPay(s: State, s1: State, w: WalletId, amount: int, paid: int, toItself: bool)
    requires Paid(s, s1, w, paid, toItself) && Balance(s.journal, w) >= amount
    ensures Inv(s1) && |s1.wallets| == |s.wallets| && Balance(s1.journal, w) >= amount - paid
  {
  }

  lemma {:induction false} ToOthers(s: State, s': State, w: WalletId, amount: int, toItself: bool)
    requires Paid(s, s', w, amount, false)
    ensures Paid(s, s', w, amount, toItself)
  {
  }

  predicate NonNegative(slices: seq<int>) {
    forall i :: 0 <= i < |slices| ==> slices[i] >= 0
  }

  lemma {:induction false} PrefixSum(slices: seq<int>)
    requires NonNegative(slices) && |slices| > 0
    ensures var n := |slices| - 1;
            && Sum(slices, Identity()) == Sum(slices[..n], Identity()) + slices[n]
            && Sum(slices[..n], Identity()) >= 0
  {
    SumNonNegative(slices[..|slices| - 1], Identity());
  }

  lemma {:induction false} PaySlicesKeeps(s: State, payer: Payer, p: TxId, slices: seq<int>)
    requires Inv(s) && PayerOk(s, payer) && NonNegative(slices)
    requires Sum(slices, Identity()) <= Balance(s.journal, payer.wallet) && PaySlices(s, payer, p, slices).Ok?
    ensures Paid(s, PaySlices(s, payer, p, slices).value, payer.wallet, Sum(slices, Identity()), PaysItself(payer))
  {
    hide Inv, SameLines, PayOut;
    if |slices| == 0 {
      LinesByMoney(s, s);
    } else {
      var n := |slices| - 1;
      PrefixSum(slices);
      PaySlicesKeeps(s, payer, p, slices[..n]);
      var s1 := PaySlices(s, payer, p, slices[..n]).value;
      var key := SweepSlice(payer.wallet, p, n, payer.minute);
      PayOutKeeps(s1, payer, slices[n], key, Some(p));
      PaidThrough(s, s1, PaySlices(s, payer, p, slices).value, payer.wallet, Sum(slices[..n], Identity()), slices[n],
                  PaysItself(payer));
    }
  }

  // ---- What a negative slice does ----

  function Positive(): int -> int {
    (n: int) => if n > 0 then n else 0
  }

  lemma {:induction false} FeePays(s: State, payer: Payer, fee: int, key: Key, purchase: Option<TxId>)
    requires PayerOk(s, payer) && payer.feeRepository.Some? && PayOutFee(s, payer, fee, key, purchase).Ok?
    ensures var s' := PayOutFee(s, payer, fee, key, purchase).value;
            TotalPaid(s', payer.wallet) == TotalPaid(s, payer.wallet) + fee && PayerOk(s', payer)
  {
    hide FindKey, Accepts, WalletToWallet;
    SumSnoc(s.txs, PayOutFee(s, payer, fee, key, purchase).value.txs[|s.txs|], PaidBy(payer.wallet));
  }

  lemma {:induction false} NetPays(s: State, payer: Payer, net: int, key: Key, purchase: Option<TxId>)
    requires PayerOk(s, payer) && PayNet(s, payer, net, key, purchase).Ok?
    ensures var s' := PayNet(s, payer, net, key, purchase).value;
            TotalPaid(s', payer.wallet) == TotalPaid(s, payer.wallet) + net && PayerOk(s', payer)
  {
    hide FindKey, Accepts, Against;
    SumSnoc(s.txs, PayNet(s, payer, net, key, purchase).value.txs[|s.txs|], PaidBy(payer.wallet));
  }

  lemma {:induction false} PayOutPays(s: State, payer: Payer, amount: int, key: Key, purchase: Option<TxId>)
    requires PayerOk(s, payer) && PayOut(s, payer, amount, key, purchase).Ok?
    ensures var s' := PayOut(s, payer, amount, key, purchase).value;
            TotalPaid(s', payer.wallet) == TotalPaid(s, payer.wallet) + Positive()(amount) && PayerOk(s', payer)
  {
    hide PayOutFee, PayNet, WithdrawalFee, TotalPaid;
    var fee := FeeOfPayout(payer, amount);
    var s1 := if fee > 0 then PayOutFee(s, payer, fee, key, purchase).value else s;
    if fee > 0 {
      FeePays(s, payer, fee, key, purchase);
    }
    if amount > fee {
      NetPays(s1, payer, amount - fee, key, purchase);
    }
  }

  /** A negative slice is skipped while the others are paid in full. */
  lemma {:induction false} SlicesPayPositive(s: State, payer: Payer, p: TxId, slices: seq<int>)
    requires PayerOk(s, payer) && PaySlices(s, payer, p, slices).Ok?
    ensures var s' := PaySlices(s, payer, p, slices).value;
            TotalPaid(s', payer.wallet) == TotalPaid(s, payer.wallet) + Sum(slices, Positive()) && PayerOk(s', payer)
  {
    hide PayOut, TotalPaid;
    if |slices| > 0 {
      var n := |slices| - 1;
      SlicesPayPositive(s, payer, p, slices[..n]);
      PayOutPays(PaySlices(s, payer, p, slices[..n]).value, payer, slices[n],
          SweepSlice(payer.wallet, p, n, payer.minute), Some(p));
    }
  }

  /** A purchase is paid out in exactly the total of its slices if and only if none of them is negative. */
  lemma {:induction false} SlicesPayExactly(s: State, payer: Payer, p: TxId, slices: seq<int>)
    requires PayerOk(s, payer) && PaySlices(s, payer, p, slices).Ok?
    ensures var paid := TotalPaid(PaySlices(s, payer, p, slices).value, payer.wallet) - TotalPaid(s, payer.wallet);
            && paid >= Sum(slices, Identity())
            && (paid == Sum(slices, Identity()) <==> NonNegative(slices))
  {
    hide PaySlices, TotalPaid;
    SlicesPayPositive(s, payer, p, slices);
    PositivePart(slices);
  }

  lemma {:induction false} PositivePart(slices: seq<int>)
    ensures Sum(slices, Positive()) >= Sum(slices, Identity())
    ensures Sum(slices, Positive()) == Sum(slices, Identity()) <==> NonNegative(slices)
  {
    if |slices| > 0 {
      var init := slices[..|slices| - 1];
      PositivePart(init);
      assert forall i :: 0 <= i < |init| ==> slices[i] == init[i];
    }
  }

  // ---- Sweeping purchase by purchase ----

  lemma {:induction false} GoodSlices(rows: seq<SplitRow>, total: nat)
    requires |rows| > 0 && GoodSplit(rows)
    ensures NonNegative(Amounts(rows, total))
  {
    assert SlicesNonNegative(rows, total);
  }

  lemma {:induction false} PurchaseSlices(s: State, p: TxId, w: WalletId)
    requires Inv(s) && p < |s.txs|
    ensures NonNegative(SlicesOf(s, p, w)) && Sum(SlicesOf(s, p, w), Identity()) >= 0
  {
    InvRow(s, p);
    var rows := if p in s.overrides then s.overrides[p] else if w in s.defaults then s.defaults[w] else [];
    if p in s.overrides {
      assert OwnSplitGood(s.txs, p, s.overrides[p]);
    } else if |rows| > 0 {
      GoodSlices(rows, s.txs[p].amount);
    }
    SumNonNegative(SlicesOf(s, p, w), Identity());
  }

  /** A purchase the sweep paid out and marked. */
  predicate NewlySettled(s: State, s': State, p: TxId) {
    p < |s.txs| && p < |s'.txs| && s'.txs[p].settled && !s.txs[p].settled
  }

  /** The slice totals of the purchases among the first `n` rows that a sweep marked. */
  function SettledTotal(s: State, s': State, w: WalletId, n: nat): int
    requires n <= |s.txs|
  {
    if n == 0 then 0
    else SettledTotal(s, s', w, n - 1)
         + if NewlySettled(s, s', n - 1) then Sum(SlicesOf(s, n - 1, w), Identity()) else 0
  }

  /** Rows keep everything but the settled mark, which only unsettled purchases of `w` gain. */
  predicate OnlyMarked(s: State, s': State, w: WalletId, n: nat) {
    && |s.txs| <= |s'.txs|
    && (forall p :: 0 <= p < |s.txs| ==> s'.txs[p] == s.txs[p].(settled := s'.txs[p].settled))
    && (forall p :: 0 <= p < |s.txs| && s'.txs[p].settled != s.txs[p].settled ==>
          s'.txs[p].settled && p < n && Unsettled(s.txs[p], w))
  }

  ghost predicate SweptOk(s: State, s': State, w: WalletId, paid: int, toItself: bool) {
    && Kept(s, s') && s' == s.(txs := s'.txs, journal := s'.journal)
    && TotalPaid(s', w) == TotalPaid(s, w) + paid
    && Balance(s'.journal, w) >= Balance(s.journal, w) - paid
    && (!toItself ==> Balance(s'.journal, w) == Balance(s.journal, w) - paid)
  }

  lemma {:induction false} SettledTotalSame(s: State, a: State, b: State, w: WalletId, n: nat)
    requires n <= |s.txs| && forall p :: 0 <= p < n ==> (NewlySettled(s, a, p) <==> NewlySettled(s, b, p))
    ensures SettledTotal(s, a, w, n) == SettledTotal(s, b, w, n)
  {
    if n > 0 {
      SettledTotalSame(s, a, b, w, n - 1);
    }
  }

  function Mark(s: State, p: TxId): State
    requires p < |s.txs|
  {
    s.(txs := s.txs[p := s.txs[p].(settled := true)])
  }

  lemma {:induction false} MarkKeeps(s: State, p: TxId, w: WalletId)
    requires Inv(s) && p < |s.txs| && s.txs[p].kind == Purchase
    ensures SweptOk(s, Mark(s, p), w, 0, false)
  {
    hide Inv, SameLines;
    InvRow(s, p);
    MarkedRowOk(s, p);
    ReplaceKeeps(s, p, s.txs[p].(settled := true));
    LinesByMoney(s, Mark(s, p));
    SumUpdate(s.txs, p, s.txs[p].(settled := true), PaidBy(w));
  }

  lemma {:induction false} MarkedRowOk(s: State, p: TxId)
    requires p < |s.txs| && RowOk(|s.wallets|, |s.installments|, s.txs, p) && s.txs[p].kind == Purchase
    ensures var t := s.txs[p].(settled := true);
            RowOk(|s.wallets|, |s.installments|, s.txs[p := t], p) && MayReplace(s.installments, s.txs[p], t, p)
  {
  }

  lemma {:induction false} SweptThrough(a: State, b: State, c: State, w: WalletId, x: int, y: int, toItself: bool)
    requires SweptOk(a, b, w, x, toItself) && SweptOk(b, c, w, y, toItself)
    ensures SweptOk(a, c, w, x + y, toItself)
  {
    hide Inv, SameLines;
    LinesThrough(a, b, c);
  }

  /** Paying and marking one purchase. */
  lemma {:induction false} PayPurchase(s: State, payer: Payer, p: TxId, slices: seq<int>)
    requires Inv(s) && PayerOk(s, payer) && p < |s.txs| && s.txs[p].kind == Purchase
    requires NonNegative(slices) && Sum(slices, Identity()) <= Balance(s.journal, payer.wallet)
    requires PaySlices(s, payer, p, slices).Ok?
    ensures var s1 := PaySlices(s, payer, p, slices).value;
            && p < |s1.txs| && SweptOk(s, Mark(s1, p), payer.wallet, Sum(slices, Identity()), PaysItself(payer))
            && |s.txs| <= |Mark(s1, p).txs|
            && forall q :: 0 <= q < |s.txs| ==>
                 Mark(s1, p).txs[q] == if q == p then s.txs[q].(settled := true) else s.txs[q]
  {
    hide Inv, SameLines, PaySlices;
    PaySlicesKeeps(s, payer, p, slices);
    var s1 := PaySlices(s, payer, p, slices).value;
    MarkKeeps(s1, p, payer.wallet);
    SweptThrough(s, s1, Mark(s1, p), payer.wallet, Sum(slices, Identity()), 0, PaysItself(payer));
  }

  /** How far a sweep has come after the first `n` rows. */
  ghost predicate SweptUpTo(s: State, done: Swept, payer: Payer, n: nat, balance: int) {
    && n <= |s.txs| && SweptOk(s, done.state, payer.wallet, balance - done.remaining, PaysItself(payer))
    && OnlyMarked(s, done.state, payer.wallet, n)
    && balance - done.remaining == SettledTotal(s, done.state, payer.wallet, n)
    && 0 <= done.remaining <= balance
  }

  lemma {:induction false} PurchaseSkipped(s: State, done: Swept, payer: Payer, n: nat, balance: int)
    requires n < |s.txs| && SweptUpTo(s, done, payer, n, balance)
    ensures SweptUpTo(s, done, payer, n + 1, balance)
  {
    hide Inv, SameLines, SlicesOf;
  }

  lemma {:induction false} PurchasePaid(s: State, done: Swept, next: State, payer: Payer, p: TxId, total: int,
      balance: int)
    requires p < |s.txs| && SweptUpTo(s, done, payer, p, balance) && Unsettled(s.txs[p], payer.wallet)
    requires total == Sum(SlicesOf(s, p, payer.wallet), Identity()) && 0 <= total <= done.remaining
    requires SweptOk(done.state, next, payer.wallet, total, PaysItself(payer)) && |done.state.txs| <= |next.txs|
    requires forall q :: 0 <= q < |done.state.txs| ==>
               next.txs[q] == if q == p then done.state.txs[q].(settled := true) else done.state.txs[q]
    ensures SweptUpTo(s, Swept(next, done.remaining - total), payer, p + 1, balance)
  {
    hide Inv, SameLines, SlicesOf, SweptOk;
    SweptThrough(s, done.state, next, payer.wallet, balance - done.remaining, total, PaysItself(payer));
    SettledTotalSame(s, done.state, next, payer.wallet, p);
    assert NewlySettled(s, next, p);
  }

  lemma {:induction false} NothingSwept(s: State, payer: Payer, balance: nat)
    requires Inv(s)
    ensures SweptUpTo(s, Swept(s, balance), payer, 0, balance)
  {
  }

  lemma {:induction false} StillThere(s: State, done: Swept, payer: Payer, n: nat, balance: int)
    requires SweptUpTo(s, done, payer, n, balance) && balance <= Balance(s.journal, payer.wallet) && PayerOk(s, payer)
    ensures Inv(done.state) && done.remaining <= Balance(done.state.journal, payer.wallet) && PayerOk(done.state, payer)
    ensures |s.txs| <= |done.state.txs|
    ensures forall p :: 0 <= p < |s.txs| ==> done.state.txs[p].kind == s.txs[p].kind
  {
    hide Inv, SameLines, SlicesOf;
  }

  /** A split-mode sweep pays exactly the slice totals of the purchases it marks, out of what was there. */
  lemma {:induction false} SweepPurchasesKeeps(s: State, payer: Payer, n: nat, balance: int)
    requires Inv(s) && PayerOk(s, payer) && n <= |s.txs| && 0 <= balance <= Balance(s.journal, payer.wallet)
    requires SweepPurchases(s, payer, n, balance).Ok?
    ensures SweptUpTo(s, SweepPurchases(s, payer, n, balance).value, payer, n, balance)
  {
    hide Inv, SameLines, PaySlices, SlicesOf, SweptUpTo, SweptOk;
    if n == 0 {
      NothingSwept(s, payer, balance);
    } else {
      var p := n - 1;
      SweepPurchasesKeeps(s, payer, p, balance);
      var done := SweepPurchases(s, payer, p, balance).value;
      var slices := SlicesOf(s, p, payer.wallet);
      PurchaseSlices(s, p, payer.wallet);
      StillThere(s, done, payer, p, balance);
      if Unsettled(s.txs[p], payer.wallet) && Sum(slices, Identity()) <= done.remaining {
        PayPurchase(done.state, payer, p, slices);
        PurchasePaid(s, done, SweepPurchases(s, payer, n, balance).value.state, payer, p, Sum(slices, Identity()),
            balance);
      } else {
        PurchaseSkipped(s, done, payer, p, balance);
      }
    }
  }

  /** What one sweep pays out: the whole balance when nothing is split, and otherwise exactly the slice
      totals of the purchases it marks settled; never more than there was. */
  function PayoutTotal(s: State, s': State, w: WalletId): int {
    if Balance(s.journal, w) <= 0 then 0
    else if !SplitMode(s, w) then Balance(s.journal, w)
    else SettledTotal(s, s', w, |s.txs|)
  }

  lemma {:induction false} SweepKeeps(s: State, w: WalletId, minute: nat, failed: set<TxId>)
    requires Inv(s) && SweepWallet(s, w, minute, failed).Ok?
    ensures var s' := SweepWallet(s, w, minute, failed).value;
            && Kept(s, s') && w < |s.wallets|
            && TotalPaid(s', w) - TotalPaid(s, w) == PayoutTotal(s, s', w)
            && 0 <= PayoutTotal(s, s', w) <= Balance(s.journal, w)
            && OnlyMarked(s, s', w, |s.txs|)
            && (Balance(s.journal, w) > 0 && PayerFor(s, w, minute, failed).value.feeRepository != Some(w) ==>
                  Balance(s'.journal, w) == Balance(s.journal, w) - PayoutTotal(s, s', w))
  {
    hide Inv, SameLines, SweepPurchases, PayOut, SplitMode;
    var s' := SweepWallet(s, w, minute, failed).value;
    LinesByMoney(s, s);
    InvMoney(s);
    HeldMoney(s, w);
    if Balance(s.journal, w) > 0 {
      var payer := PayerFor(s, w, minute, failed).value;
      if !SplitMode(s, w) {
        PayOutKeeps(s, payer, Balance(s.journal, w), Sweep(w, minute), None);
      } else {
        SweepPurchasesKeeps(s, payer, |s.txs|, Balance(s.journal, w));
      }
    }
  }
}
