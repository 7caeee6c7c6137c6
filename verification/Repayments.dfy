/** Money coming in for a credit line, and the repository giving up on it: where each part of a
    charge lands, and what is settled with it. */
module Repayments {
  import opened Common
  import opened Sums
  import opened Ledger
  import opened Installments
  import opened Settlement
  import opened Bank
  import opened BankInvariant
  import opened CreditLines
  import opened MoneyMoves
  import opened Purchases

  // ---- Routing the fee, penalty and unblock slices ----

  function PartAmount(): Part -> int {
    (p: Part) => if p.amount > 0 then p.amount else 0
  }

  function MovedAmount(): Movement -> int {
    (m: Movement) => m.amount
  }

  /** What of a slice reaches wallet `w`: everything, if `w` is its open sub-repository. */
  function PartTo(ws: seq<Wallet>, w: WalletId): Part -> int {
    (p: Part) => if p.amount > 0 && p.target == Some(w) && w < |ws| && !ws[w].closed then p.amount else 0
  }

  lemma {:induction false} RoutedRowOk(s: State, t: Tx)
    requires (t.kind == Transfer || t.kind == Deposit) && t.status == Completed && t.amount > 0
    requires InTable(t.from, |s.wallets|) && InTable(t.to, |s.wallets|) && !IsRepayment(t) && t.completes.None?
    requires !t.key.CreditFund?
    ensures RowOk(|s.wallets|, |s.installments|, s.txs + [t], |s.txs|)
  {
  }

  /** What of a slice stays with the main repository: its sub-repository is missing or closed. */
  function PartStays(ws: seq<Wallet>): Part -> int {
    (p: Part) => if OpenTarget(ws, p) then 0 else PartAmount()(p)
  }

  predicate OpenTarget(ws: seq<Wallet>, part: Part) {
    part.amount > 0 && part.target.Some? && part.target.value < |ws| && !ws[part.target.value].closed
  }

  lemma {:induction false} RouteSliceKeeps(s: State, r: Routed, main: WalletId, part: Part, transfer: bool,
      prefix: SplitPrefix)
    requires Inv(r.state) && r.state == s.(txs := r.state.txs) && s.txs <= r.state.txs && main < |s.wallets|
    requires NoRepaymentsFrom(r.state.txs, |s.txs|) && RouteSlice(r, main, part, transfer, prefix).Ok?
    ensures var after := RouteSlice(r, main, part, transfer, prefix).value;
            && Inv(after.state) && after.state == s.(txs := after.state.txs) && s.txs <= after.state.txs
            && NoRepaymentsFrom(after.state.txs, |s.txs|)
            && (if OpenTarget(s.wallets, part)
                then after.legs == r.legs + [Movement(Own(s, part.target.value), part.amount)]
                    && after.unrouted == r.unrouted
                else after.legs == r.legs && after.unrouted == r.unrouted + PartAmount()(part))
  {
    hide Inv, RowOk;
    if OpenTarget(s.wallets, part) {
      var row := Row(if transfer then Transfer else Deposit, Completed, if transfer then Some(main) else None,
                     part.target, part.amount, SliceKey(prefix, part.slice));
      RoutedRowOk(r.state, row);
      InsertKeeps(r.state, row);
    }
  }

  predicate NoRepaymentsFrom(txs: seq<Tx>, n: nat) {
    forall id :: n <= id < |txs| ==> !IsRepayment(txs[id])
  }

  /** What routing leaves behind: each slice reached its sub-repository or stayed with the main one. */
  ghost predicate IsRouted(ws: seq<Wallet>, parts: seq<Part>, unrouted: int, legs: seq<Movement>) {
    && Held(ws, legs) && unrouted >= 0
    && (forall i :: 0 <= i < |legs| ==> legs[i].amount > 0)
    && Sum(legs, MovedAmount()) + unrouted == Sum(parts, PartAmount()) && unrouted == Sum(parts, PartStays(ws))
    && forall w: WalletId :: Sum(legs, Moved(w)) == Sum(parts, PartTo(ws, w))
  }

  lemma {:induction false} NextRouted(s: State, parts: seq<Part>, part: Part, unrouted: int, legs: seq<Movement>)
    requires IsRouted(s.wallets, parts, unrouted, legs)
    ensures if OpenTarget(s.wallets, part)
            then IsRouted(s.wallets, parts + [part], unrouted,
                legs + [Movement(Own(s, part.target.value), part.amount)])
            else IsRouted(s.wallets, parts + [part], unrouted + PartAmount()(part), legs)
  {
    SumSnoc(parts, part, PartAmount());
    SumSnoc(parts, part, PartStays(s.wallets));
    forall w: WalletId ensures Sum(parts + [part], PartTo(s.wallets, w))
        == Sum(parts, PartTo(s.wallets, w)) + PartTo(s.wallets, w)(part) {
      SumSnoc(parts, part, PartTo(s.wallets, w));
    }
    if OpenTarget(s.wallets, part) {
      var leg := Movement(Own(s, part.target.value), part.amount);
      SumSnoc(legs, leg, MovedAmount());
      forall w: WalletId ensures Sum(legs + [leg], Moved(w)) == Sum(legs, Moved(w)) + Moved(w)(leg) {
        SumSnoc(legs, leg, Moved(w));
      }
    }
  }

  /** Whatever sub-repositories are missing or closed: rows are added and nothing else, and every slice
      is either routed or left with the main repository. */
  lemma {:induction false} RouteKeeps(s: State, main: WalletId, parts: seq<Part>, transfer: bool, prefix: SplitPrefix)
    requires Inv(s) && main < |s.wallets| && Route(s, main, parts, transfer, prefix).Ok?
    ensures var r := Route(s, main, parts, transfer, prefix).value;
            && Inv(r.state) && r.state == s.(txs := r.state.txs) && s.txs <= r.state.txs
            && NoRepaymentsFrom(r.state.txs, |s.txs|)
            && IsRouted(s.wallets, parts, r.unrouted, r.legs)
  {
    hide Inv, IsRouted, RouteSlice;
    if |parts| == 0 {
      NothingRouted(s.wallets);
    } else {
      var init, part := parts[..|parts| - 1], parts[|parts| - 1];
      RouteKeeps(s, main, init, transfer, prefix);
      var r := Route(s, main, init, transfer, prefix).value;
      RouteSliceKeeps(s, r, main, part, transfer, prefix);
      NextRouted(s, init, part, r.unrouted, r.legs);
      assert init + [part] == parts;
    }
  }

  /** The same of the tables alone, whether the books hold or not. */
  lemma {:induction false} RouteSplits(s: State, main: WalletId, parts: seq<Part>, transfer: bool, prefix: SplitPrefix)
    requires Route(s, main, parts, transfer, prefix).Ok?
    ensures var r := Route(s, main, parts, transfer, prefix).value;
            && r.state == s.(txs := r.state.txs) && s.txs <= r.state.txs
                && IsRouted(s.wallets, parts, r.unrouted, r.legs)
  {
    hide IsRouted, FindKey;
    if |parts| == 0 {
      NothingRouted(s.wallets);
    } else {
      var init, part := parts[..|parts| - 1], parts[|parts| - 1];
      RouteSplits(s, main, init, transfer, prefix);
      var r := Route(s, main, init, transfer, prefix).value;
      NextRouted(s, init, part, r.unrouted, r.legs);
      assert init + [part] == parts;
    }
  }

  lemma {:induction false} NothingRouted(ws: seq<Wallet>)
    ensures IsRouted(ws, [], 0, [])
  {
  }

  // ---- Landing a charge ----

  lemma {:induction false} CashInStep(s: State, tx: TxId, currency: CurrencyId, total: int, credits: seq<Movement>)
    requires MoneyOk(s.wallets, s.journal) && Held(s.wallets, credits)
    requires Post(s, tx, CashInLegs(BankCash, currency, total, credits)).Ok?
    ensures var s' := Post(s, tx, CashInLegs(BankCash, currency, total, credits)).value;
            && MoneyStep(s, s')
            && forall w: WalletId :: Balance(s'.journal, w) == Balance(s.journal, w) + Sum(credits, Moved(w))
    ensures total == Sum(credits, MovedIn(currency))
    ensures forall i :: 0 <= i < |credits| && credits[i].amount > 0 ==> credits[i].holder.currency == currency
  {
    CashInEffect(BankCash, currency, total, credits);
    MovedNonNegative(credits);
    MovementsFiled(s.wallets, credits, 1);
    PostStep(s, tx, CashInLegs(BankCash, currency, total, credits));
    CashInBalances(currency, total, credits);
  }

  /** Accepted cash is what the credits add up to, all in its currency. */
  lemma {:induction false} CashInBalances(currency: CurrencyId, total: int, credits: seq<Movement>)
    requires Accepts(CashInLegs(BankCash, currency, total, credits))
    ensures total == Sum(credits, MovedIn(currency))
    ensures forall i :: 0 <= i < |credits| && credits[i].amount > 0 ==> credits[i].holder.currency == currency
  {
    var legs := CashInLegs(BankCash, currency, total, credits);
    CashInEffect(BankCash, currency, total, credits);
    AcceptsExactly(legs);
    forall i | 0 <= i < |credits| && credits[i].amount > 0 ensures credits[i].holder.currency == currency {
      var c := credits[i].holder.currency;
      SumNonNegative(credits, MovedIn(c));
      assert Sum(legs, SignedIn(c)) == 0;
      assert MovedIn(c)(credits[i]) > 0;
    }
  }

  lemma {:induction false} SameCurrencyMoved(ms: seq<Movement>, c: CurrencyId)
    requires forall i :: 0 <= i < |ms| ==> ms[i].amount > 0 && ms[i].holder.currency == c
    ensures Sum(ms, MovedIn(c)) == Sum(ms, MovedAmount())
  {
    SumSame(ms, ms, MovedIn(c), MovedAmount());
  }

  lemma {:induction false} FirstMoved(m: Movement, ms: seq<Movement>, f: Movement -> int)
    ensures Sum([m] + ms, f) == f(m) + Sum(ms, f)
  {
    SumConcat([m], ms, f);
    SumOne(m, f);
  }

  predicate Chargeable(s: State, t: TxId) {
    && t < |s.txs| && IsRepayment(s.txs[t]) && s.txs[t].to.Some? && s.txs[t].to.value < |s.wallets|
    && (s.txs[t].installment.Some? ==> s.txs[t].installment.value < |s.installments|)
  }

  lemma {:induction false} LandUnfolds(s: State, t: TxId) returns (charge: Charge, r: Routed)
    requires Chargeable(s, t) && LandRepayment(s, t, s.txs[t].to.value).Ok?
    ensures var main := s.txs[t].to.value;
            && ChargeOf(s, t) == Ok(charge) && Route(s, main, charge.parts, false, OfRepayment(t)) == Ok(r)
            && charge.principal + r.unrouted > 0 && t < |r.state.txs|
            && var legs := CashInLegs(BankCash, s.wallets[main].typ.currency, s.txs[t].amount,
                                      [Movement(Own(s, main), charge.principal + r.unrouted)] + r.legs);
               (&& Post(r.state, t, legs).Ok?
                && LandRepayment(s, t, main)
                    == Ok(Post(r.state, t, legs).value.(txs := r.state.txs[t := r.state.txs[t].(
                     amount := charge.principal + r.unrouted, status := Completed)])))
  {
    charge := ChargeOf(s, t).value;
    r := Route(s, s.txs[t].to.value, charge.parts, false, OfRepayment(t)).value;
    TwiceUpdated(r.state.txs, t, charge.principal + r.unrouted);
  }

  lemma {:induction false} TwiceUpdated(txs: seq<Tx>, t: TxId, amount: int)
    requires t < |txs|
    ensures var shrunk := txs[t := txs[t].(amount := amount)];
            shrunk[t := shrunk[t].(status := Completed)] == txs[t := txs[t].(amount := amount, status := Completed)]
  {
  }

  /** What reaches the main repository: the principal and every slice that could not be routed. */
  function Landed(s: State, t: TxId): int
    requires Chargeable(s, t)
  {
    if LandRepayment(s, t, s.txs[t].to.value).Fail? || t >= |LandRepayment(s, t, s.txs[t].to.value).value.txs| then 0
    else LandRepayment(s, t, s.txs[t].to.value).value.txs[t].amount
  }

  /** A verified charge is conserved: what reached the repository, which is what the row's amount shrank
      to, and what the open sub-repositories received add up to the charge; nothing else moved. */
  lemma {:induction false} LandRepaymentKeeps(s: State, t: TxId)
    requires Inv(s) && Chargeable(s, t) && LandRepayment(s, t, s.txs[t].to.value).Ok?
    ensures ChargeOf(s, t).Ok?
    ensures var s' := LandRepayment(s, t, s.txs[t].to.value).value;
            && Kept(s, s') && s' == s.(txs := s'.txs, journal := s'.journal) && |s.txs| <= |s'.txs|
            && (forall id :: 0 <= id < |s.txs| && id != t ==> s'.txs[id] == s.txs[id])
            && NoRepaymentsFrom(s'.txs, |s.txs|) && s'.txs[t] == s.txs[t].(status := Completed, amount := Landed(s, t))
            && (forall w: WalletId :: Receivable(s'.journal, w) == Receivable(s.journal, w))
            && forall w: WalletId :: Balance(s'.journal, w) == Balance(s.journal, w)
                 + (if s.txs[t].to == Some(w) then Landed(s, t) else 0)
                 + Sum(ChargeOf(s, t).value.parts, PartTo(s.wallets, w))
    ensures var charge := ChargeOf(s, t).value;
            && Landed(s, t) == charge.principal + Sum(charge.parts, PartStays(s.wallets))
            && s.txs[t].amount == charge.principal + Sum(charge.parts, PartAmount())
  {
    hide Inv, LandRepayment, Route, ChargeOf, CashInLegs;
    var main := s.txs[t].to.value;
    var charge, r := LandUnfolds(s, t);
    var toRepository := charge.principal + r.unrouted;
    var credits := [Movement(Own(s, main), toRepository)] + r.legs;
    InvRow(s, t);
    RouteKeeps(s, main, charge.parts, false, OfRepayment(t));
    InvMoney(r.state);
    CashInStep(r.state, t, s.wallets[main].typ.currency, s.txs[t].amount, credits);
    var s1 := Post(r.state, t, CashInLegs(BankCash, s.wallets[main].typ.currency, s.txs[t].amount, credits)).value;
    MoneyStepKeeps(r.state, s1);
    var done := s.txs[t].(amount := toRepository, status := Completed);
    RepaidRowOk(s1, t, done);
    ReplaceKeeps(s1, t, done);
    LandedSplit(s, main, toRepository, r.legs);
    LandedWhole(s, main, toRepository, r.legs);
  }

  lemma {:induction false} RepaidRowOk(s: State, t: TxId, done: Tx)
    requires t < |s.txs| && RowOk(|s.wallets|, |s.installments|, s.txs, t) && IsRepayment(s.txs[t])
    requires done == s.txs[t].(amount := done.amount, status := Completed) && done.amount > 0
    ensures RowOk(|s.wallets|, |s.installments|, s.txs[t := done], t) && MayReplace(s.installments, s.txs[t], done, t)
  {
  }

  lemma {:induction false} LandedSplit(s: State, main: WalletId, amount: int, legs: seq<Movement>)
    requires main < |s.wallets| && amount > 0
    ensures forall w: WalletId :: Sum([Movement(Own(s, main), amount)] + legs, Moved(w))
              == (if w == main then amount else 0) + Sum(legs, Moved(w))
  {
    var m := Movement(Own(s, main), amount);
    forall w: WalletId ensures Sum([m] + legs, Moved(w)) == (if w == main then amount else 0) + Sum(legs, Moved(w)) {
      FirstMoved(m, legs, Moved(w));
    }
  }

  lemma {:induction false} LandedWhole(s: State, main: WalletId, amount: int, legs: seq<Movement>)
    requires main < |s.wallets| && amount > 0 && forall i :: 0 <= i < |legs| ==> legs[i].amount > 0
    requires var credits, c := [Movement(Own(s, main), amount)] + legs, s.wallets[main].typ.currency;
             forall i :: 0 <= i < |credits| && credits[i].amount > 0 ==> credits[i].holder.currency == c
    ensures Sum([Movement(Own(s, main), amount)] + legs, MovedIn(s.wallets[main].typ.currency))
         == amount + Sum(legs, MovedAmount())
  {
    var m, c := Movement(Own(s, main), amount), s.wallets[main].typ.currency;
    FirstMoved(m, legs, MovedIn(c));
    forall i | 0 <= i < |legs| ensures legs[i].holder.currency == c {
      assert ([m] + legs)[i + 1] == legs[i];
    }
    SameCurrencyMoved(legs, c);
  }

  lemma {:induction false} ThreeParts(terms: Terms, fee: int, penalty: int, unblockFee: int, f: Part -> int)
    ensures var parts := Parts(terms, fee, penalty, unblockFee);
            Sum(parts, f) == f(parts[0]) + f(parts[1]) + f(parts[2])
  {
    var parts := Parts(terms, fee, penalty, unblockFee);
    SumPair(parts[0], parts[1], f);
    SumSnoc([parts[0], parts[1]], parts[2], f);
    assert parts == [parts[0], parts[1]] + [parts[2]];
  }

  lemma {:induction false} ChargeCoversRows(s: State, t: TxId)
    requires Chargeable(s, t) && ChargeOf(s, t).Ok?
    requires var charge := ChargeOf(s, t).value;
             s.txs[t].amount == charge.principal + Sum(charge.parts, PartAmount())
    ensures s.txs[t].amount >= Sum(RepaidRows(s, s.txs[t]).0, AmountOf())
  {
    var (rows, w) := RepaidRows(s, s.txs[t]);
    var split := RepaymentSplit(rows);
    var unblockFee := s.txs[t].amount - split.principal - split.fee - split.penalty;
    ThreeParts(s.wallets[w].typ.terms, split.fee, split.penalty, unblockFee, PartAmount());
  }

  /** A gateway charge below what the installments ask for is turned away, and with it the whole request. */
  lemma {:induction false} SmallChargeRejected(s: State, t: TxId, paid: bool, now: int, today: Today)
    requires Inv(s) && Chargeable(s, t) && s.txs[t].status == Awaiting
    requires s.txs[t].amount < Sum(RepaidRows(s, s.txs[t]).0, AmountOf())
    ensures ReceiveMoney(s, t).Fail? && Next(s, OpVerify(t, paid, now, today)) == s
  {
    hide Inv, LandRepayment, RepaymentSplit, Parts, ChargeOf, RepaidRows;
    InvRow(s, t);
    if LandRepayment(s, t, s.txs[t].to.value).Ok? {
      LandRepaymentKeeps(s, t);
      ChargeCoversRows(s, t);
    }
  }

  // ---- Settling ----

  lemma {:induction false} UnblockKeeps(s: State, w: WalletId)
    requires Inv(s)
    ensures Kept(s, Unblock(s, w)) && Unblock(s, w).journal == s.journal
  {
    if w < |s.wallets| {
      FlagsKeep(s, Unblock(s, w).wallets);
    }
  }

  /** Verifying a repayment settles its installment and keeps the books, exactly when that installment
      was still unpaid: its status is not looked at again. */
  lemma {:induction false} MarkPaidKeepsExactly(s: State, i: nat, tx: TxId)
    requires Inv(s) && i < |s.installments| && MarkPaid(s, i, tx).Ok?
    ensures var s' := MarkPaid(s, i, tx).value;
            && (Inv(s') <==> Unpaid(s.installments[i]))
            && (Inv(s') ==> SameLines(s, s'))
            && (forall w: WalletId :: Balance(s'.journal, w) == Balance(s.journal, w))
            && s'.installments == s.installments[i := s.installments[i].(status := Paid)]
            && s.installments[i].wallet < |s'.wallets| && !s'.wallets[s.installments[i].wallet].blocked
  {
    hide Inv, SameLines, SettleOne;
    InvInstallment(s, i);
    SettlementTables(s, i, tx);
    var s1 := SettleOne(s, i, tx).value;
    SettlementKeepsLine(s, s1, i, tx);
    if Unpaid(s.installments[i]) {
      SettleOneKeeps(s, i, tx);
      UnblockKeeps(s1, s.installments[i].wallet);
      LinesThrough(s, s1, Unblock(s1, s.installments[i].wallet));
    } else {
      SettlingTwiceBreaksDebts(s, i, tx);
      DebtsBroken(Unblock(s1, s.installments[i].wallet));
    }
  }

  lemma {:induction false} DebtsBroken(s: State)
    requires !DebtsOk(s.journal, s.installments)
    ensures !Inv(s)
  {
  }

  predicate Outstanding(i: Installment, w: WalletId) {
    i.wallet == w && Unpaid(i)
  }

  /** Rows of `w` among the first `n` settled, every other row as it was. */
  predicate SettledUpTo(before: seq<Installment>, after: seq<Installment>, w: WalletId, n: nat) {
    && |after| == |before|
    && forall i :: 0 <= i < |before| ==>
         after[i] == if i < n && Outstanding(before[i], w) then before[i].(status := Paid) else before[i]
  }

  lemma {:induction false} SettleOutstandingKeeps(s: State, w: WalletId, n: nat, tx: TxId)
    requires Inv(s) && n <= |s.installments| && SettleOutstanding(s, w, n, tx).Ok?
    ensures var s' := SettleOutstanding(s, w, n, tx).value;
            && Kept(s, s') && SettledUpTo(s.installments, s'.installments, w, n)
            && (forall v: WalletId :: Balance(s'.journal, v) == Balance(s.journal, v))
            && |s'.wallets| == |s.wallets|
  {
    hide Inv, SameLines, SettleOne;
    if n == 0 {
      LinesByMoney(s, s);
    } else {
      SettleOutstandingKeeps(s, w, n - 1, tx);
      var s1 := SettleOutstanding(s, w, n - 1, tx).value;
      if Outstanding(s.installments[n - 1], w) {
        SettleOneKeeps(s1, n - 1, tx);
        var s' := SettleOne(s1, n - 1, tx).value;
        SettlementKeepsLine(s1, s', n - 1, tx);
        LinesThrough(s, s1, s');
      }
    }
  }

  lemma {:induction false} NothingLeft(installments: seq<Installment>, w: WalletId)
    requires forall i :: 0 <= i < |installments| ==> !Outstanding(installments[i], w)
    ensures OutstandingRows(installments, w) == []
  {
    if |installments| > 0 {
      NothingLeft(installments[..|installments| - 1], w);
    }
  }

  /** Settling everything a wallet owes clears both its debt and its block. */
  lemma {:induction false} MarkAllPaidClears(s: State, w: WalletId, tx: TxId)
    requires Inv(s) && MarkAllPaid(s, w, tx).Ok?
    ensures var s' := MarkAllPaid(s, w, tx).value;
            && Kept(s, s') && SettledUpTo(s.installments, s'.installments, w, |s.installments|)
            && Receivable(s'.journal, w) == 0 && OutstandingRows(s'.installments, w) == []
            && (forall v: WalletId :: Balance(s'.journal, v) == Balance(s.journal, v))
            && (w < |s.wallets| ==> && w < |s'.wallets| && !s'.wallets[w].blocked
                                    && forall today: int :: !TooLate(s', w, today))
  {
    hide Inv, SameLines, SettleOutstanding;
    SettleOutstandingKeeps(s, w, |s.installments|, tx);
    var s1 := SettleOutstanding(s, w, |s.installments|, tx).value;
    UnblockKeeps(s1, w);
    LinesThrough(s, s1, Unblock(s1, w));
    NothingLeft(s1.installments, w);
    OwesNothing(s1, w);
  }

  /** The rows a verified charge settles. */
  predicate Settleable(s: State, t: TxId)
    requires t < |s.txs|
  {
    && (s.txs[t].installment.Some? ==> s.txs[t].installment.value < |s.installments|
                                       && Unpaid(s.installments[s.txs[t].installment.value]))
  }

  lemma {:induction false} DepositKeeps(s: State, t: TxId)
    requires Inv(s) && t < |s.txs| && s.txs[t].kind == Deposit && !IsRepayment(s.txs[t]) && s.txs[t].completes.None?
    requires s.txs[t].to.Some? && s.txs[t].to.value < |s.wallets|
    requires PayIn(s, t, s.txs[t].to.value, s.txs[t].amount).Ok?
    ensures var s1 := PayIn(s, t, s.txs[t].to.value, s.txs[t].amount).value;
            t < |s1.txs| && Kept(s, SetStatus(s1, t, Completed))
            && forall v: WalletId ::
                Balance(s1.journal, v) == Balance(s.journal, v) + Shift(s, s.txs[t].to.value, s.txs[t].amount, v)
  {
    hide Inv, SameLines;
    InvRow(s, t);
    InvMoney(s);
    WalletsAreLinked(s.wallets);
    PayInStep(s, t, s.txs[t].to.value, s.txs[t].amount);
    var s1 := PayIn(s, t, s.txs[t].to.value, s.txs[t].amount).value;
    MoneyStepKeeps(s, s1);
    CompletedRowOk(s, t);
    ReplaceKeeps(s1, t, s1.txs[t].(status := Completed));
    LinesByMoney(s, SetStatus(s1, t, Completed));
  }

  lemma {:induction false} CompletedRowOk(s: State, t: TxId)
    requires t < |s.txs| && RowOk(|s.wallets|, |s.installments|, s.txs, t) && s.txs[t].kind == Deposit
    ensures var done := s.txs[t].(status := Completed);
            RowOk(|s.wallets|, |s.installments|, s.txs[t := done], t) && MayReplace(s.installments, s.txs[t], done, t)
  {
  }

  /** Money from the gateway keeps the books exactly when it does not repay an installment that was
      canceled while the customer was paying. */
  lemma {:induction false} ReceiveKeepsExactly(s: State, t: TxId)
    requires Inv(s) && t < |s.txs| && s.txs[t].kind == Deposit && s.txs[t].completes.None? && ReceiveMoney(s, t).Ok?
    ensures Inv(ReceiveMoney(s, t).value) <==> Settleable(s, t)
    ensures Inv(ReceiveMoney(s, t).value) ==> SameLines(s, ReceiveMoney(s, t).value)
  {
    hide Inv, SameLines, LandRepayment, PayIn, MarkPaid, MarkAllPaid;
    InvRow(s, t);
    if !IsRepayment(s.txs[t]) {
      DepositKeeps(s, t);
    } else {
      LandRepaymentKeeps(s, t);
      var s1 := LandRepayment(s, t, s.txs[t].to.value).value;
      var s' := SettleRepaid(s1, s.txs[t], t).value;
      if s.txs[t].installment.Some? {
        MarkPaidKeepsExactly(s1, s.txs[t].installment.value, t);
      } else {
        MarkAllPaidClears(s1, s.txs[t].settles.value, t);
      }
      if Inv(s') {
        LinesThrough(s, s1, s');
      }
    }
  }

  // ---- Write-offs ----

  lemma {:induction false} WriteOffUnfolds(s: State, w: WalletId, quit: bool, key: string)
      returns (r: Routed, parts: seq<Part>, s2: State)
    requires WriteOff(s, w, quit, key).Ok?
    ensures w < |s.wallets| && s.wallets[w].repository.Some? && s.wallets[w].repository.value < |s.wallets|
    ensures |OutstandingRows(s.installments, w)| > 0
    ensures var main := s.wallets[w].repository.value;
            var split := RepaymentSplit(OutstandingRows(s.installments, w));
            var unblockFee := if quit then 0 else s.wallets[w].typ.terms.unblockFee;
            var total := split.fee + split.penalty + unblockFee;
            && parts == Parts(s.wallets[w].typ.terms, split.fee, split.penalty, unblockFee)
            && Route(s, main, parts, true, if quit then OfQuit(key) else OfOverdue(key)) == Ok(r)
            && Balance(s.journal, main) >= total - r.unrouted
            && var row := Row(Adjustment, Completed, Some(main), None, total, Client(key));
               (&& total > 0 && Insert(r.state, row).Ok?
                && PostAbsorbed(r.state.(txs := r.state.txs + [row]), |r.state.txs|, main, total - r.unrouted, r.legs)
                    == Ok(s2)
                && WriteOff(s, w, quit, key) == MarkAllPaid(s2, w, |r.state.txs|))
  {
    hide OutstandingRows, RepaymentSplit, Parts, Route, MarkAllPaid, PostAbsorbed;
    var main := s.wallets[w].repository.value;
    var split := RepaymentSplit(OutstandingRows(s.installments, w));
    var unblockFee := if quit then 0 else s.wallets[w].typ.terms.unblockFee;
    parts := Parts(s.wallets[w].typ.terms, split.fee, split.penalty, unblockFee);
    r := Route(s, main, parts, true, if quit then OfQuit(key) else OfOverdue(key)).value;
    var total := split.fee + split.penalty + unblockFee;
    var row := Row(Adjustment, Completed, Some(main), None, total, Client(key));
    s2 := PostAbsorbed(r.state.(txs := r.state.txs + [row]), |r.state.txs|, main, total - r.unrouted, r.legs).value;
  }

  lemma {:induction false} AbsorbedStep(s: State, tx: TxId, r: WalletId, total: int, legs: seq<Movement>)
    requires MoneyOk(s.wallets, s.journal) && r < |s.wallets| && Held(s.wallets, legs)
    requires Balance(s.journal, r) >= total && PostAbsorbed(s, tx, r, total, legs).Ok?
    ensures var s' := PostAbsorbed(s, tx, r, total, legs).value;
            && MoneyStep(s, s')
            && forall w: WalletId :: Balance(s'.journal, w) == Balance(s.journal, w) + Sum(legs, Moved(w))
                 - if w == r && |legs| > 0 && total > 0 then total else 0
  {
    if |legs| > 0 {
      var debit := Movement(Own(s, r), total);
      forall w: WalletId ensures Sum([debit], Moved(w)) == if w == r && total > 0 then total else 0 {
        SumOne(debit, Moved(w));
      }
      forall w: WalletId ensures Balance(s.journal, w) >= Sum([debit], Moved(w)) {
        HeldMoney(s, w);
      }
      MultiStep(s, tx, [debit], legs);
    }
  }

  /** The steps of a write-off, whether the books hold or not. */
  lemma {:induction false} AbsorbTables(s: State, w: WalletId, quit: bool, key: string)
      returns (r: Routed, parts: seq<Part>, s2: State)
    requires WriteOff(s, w, quit, key).Ok?
    ensures w < |s.wallets| && s.wallets[w].repository.Some? && s.wallets[w].repository.value < |s.wallets|
    ensures var main, terms := s.wallets[w].repository.value, s.wallets[w].typ.terms;
            var split := RepaymentSplit(OutstandingRows(s.installments, w));
            var unblockFee := if quit then 0 else terms.unblockFee;
            var total := split.fee + split.penalty + unblockFee;
            var row := Row(Adjustment, Completed, Some(main), None, total, Client(key));
            && parts == Parts(terms, split.fee, split.penalty, unblockFee)
            && Route(s, main, parts, true, if quit then OfQuit(key) else OfOverdue(key)) == Ok(r)
            && r.state == s.(txs := r.state.txs) && s.txs <= r.state.txs
                && IsRouted(s.wallets, parts, r.unrouted, r.legs)
            && PostAbsorbed(r.state.(txs := r.state.txs + [row]), |r.state.txs|, main, total - r.unrouted, r.legs)
                == Ok(s2)
            && Insert(r.state, row).Ok? && s2 == s.(txs := r.state.txs + [row], journal := s2.journal)
            && WriteOff(s, w, quit, key) == MarkAllPaid(s2, w, |r.state.txs|)
  {
    hide WriteOff, Route, MarkAllPaid, Parts, RepaymentSplit, OutstandingRows, IsRouted, MultiLegs;
    r, parts, s2 := WriteOffUnfolds(s, w, quit, key);
    RouteSplits(s, s.wallets[w].repository.value, parts, true, if quit then OfQuit(key) else OfOverdue(key));
  }

  /** The write-off before anything is settled: slices routed, its own row, at most one entry. */
  lemma {:induction false} AbsorbKeeps(s: State, w: WalletId, quit: bool, key: string)
      returns (r: Routed, parts: seq<Part>, s2: State)
    requires Inv(s) && WriteOff(s, w, quit, key).Ok?
    ensures w < |s.wallets| && s.wallets[w].repository.Some? && s.wallets[w].repository.value < |s.wallets|
    ensures var main, terms := s.wallets[w].repository.value, s.wallets[w].typ.terms;
            var split := RepaymentSplit(OutstandingRows(s.installments, w));
            var unblockFee := if quit then 0 else terms.unblockFee;
            var total := split.fee + split.penalty + unblockFee;
            var row := Row(Adjustment, Completed, Some(main), None, total, Client(key));
            && parts == Parts(terms, split.fee, split.penalty, unblockFee)
            && Route(s, main, parts, true, if quit then OfQuit(key) else OfOverdue(key)) == Ok(r)
            && r.state == s.(txs := r.state.txs) && s.txs <= r.state.txs
                && IsRouted(s.wallets, parts, r.unrouted, r.legs)
            && PostAbsorbed(r.state.(txs := r.state.txs + [row]), |r.state.txs|, main, total - r.unrouted, r.legs)
                == Ok(s2)
            && Insert(r.state, row).Ok? && Kept(s, s2) && s2 == s.(txs := r.state.txs + [row], journal := s2.journal)
            && WriteOff(s, w, quit, key) == MarkAllPaid(s2, w, |r.state.txs|)
  {
    hide Inv, SameLines, WriteOff, Route, PostAbsorbed, MarkAllPaid, RowOk;
    InvMoney(s);
    r, parts, s2 := WriteOffUnfolds(s, w, quit, key);
    var main := s.wallets[w].repository.value;
    var split := RepaymentSplit(OutstandingRows(s.installments, w));
    var total := split.fee + split.penalty + if quit then 0 else s.wallets[w].typ.terms.unblockFee;
    RouteKeeps(s, main, parts, true, if quit then OfQuit(key) else OfOverdue(key));
    var row := Row(Adjustment, Completed, Some(main), None, total, Client(key));
    AdjustmentRowOk(r.state, row);
    InsertKeeps(r.state, row);
    var s1 := r.state.(txs := r.state.txs + [row]);
    InvMoney(s1);
    AbsorbedStep(s1, |r.state.txs|, main, total - r.unrouted, r.legs);
    MoneyStepKeeps(s1, s2);
    LinesByMoney(s, s2);
  }

  /** Writing off what a wallet owes keeps the books: the debt and the block are gone, the repository
      paid exactly the slices that were routed. */
  lemma {:induction false} WriteOffKeeps(s: State, w: WalletId, quit: bool, key: string)
    requires Inv(s) && WriteOff(s, w, quit, key).Ok?
    ensures var s' := WriteOff(s, w, quit, key).value;
            && Kept(s, s') && Receivable(s'.journal, w) == 0 && OutstandingRows(s'.installments, w) == []
            && w < |s'.wallets| && !s'.wallets[w].blocked
  {
    hide Inv, SameLines, WriteOff, Route, PostAbsorbed, MarkAllPaid;
    var r, parts, s2 := AbsorbKeeps(s, w, quit, key);
    MarkAllPaidClears(s2, w, |r.state.txs|);
    LinesThrough(s, s2, WriteOff(s, w, quit, key).value);
  }

  lemma {:induction false} AdjustmentRowOk(s: State, t: Tx)
    requires t.kind == Adjustment && t.status == Completed && t.amount > 0
    requires InTable(t.from, |s.wallets|) && InTable(t.to, |s.wallets|) && !IsRepayment(t) && t.completes.None?
    requires t.key.Client?
    ensures RowOk(|s.wallets|, |s.installments|, s.txs + [t], |s.txs|)
  {
  }
}
