/** What every reachable state of the money engine satisfies, table by table, and how single
    row changes keep it. */
module BankInvariant {
  import opened Common
  import opened Sums
  import opened Ledger
  import opened Installments
  import opened Settlement
  import opened Bank

  // ---- The invariant ----

  /** A credit wallet is backed by a repository, and a repository by nothing. */
  predicate Linked(ws: seq<Wallet>, w: WalletId)
    requires w < |ws|
  {
    var r := ws[w].repository;
    r.Some? ==>
      r.value < |ws| && ws[r.value].repository.None? && ws[r.value].typ.code == Repository
          && ws[w].typ.code == CreditLine
  }

  predicate LinksOk(ws: seq<Wallet>) {
    forall w :: 0 <= w < |ws| ==> Linked(ws, w)
  }

  predicate LinkOk(ws: seq<Wallet>, w: WalletId)
    requires w < |ws|
  {
    Linked(ws, w) && (ws[w].repository.Some? ==> ws[w].typ.currency == ws[ws[w].repository.value].typ.currency)
  }

  predicate PlansInstallments(terms: Terms) {
    terms.installmentCount.Some? && terms.installmentCount.value >= 1
  }

  predicate WalletsOk(ws: seq<Wallet>) {
    forall w :: 0 <= w < |ws| ==> ws[w].virtualAmount >= 0 && LinkOk(ws, w)
  }

  predicate InTable(w: Option<WalletId>, n: nat) {
    w.Some? ==> w.value < n
  }

  /** An original purchase, as opposed to the marker row of a refund. */
  predicate IsPurchase(t: Tx) {
    t.kind == Purchase && t.related.None?
  }

  predicate RowOk(wallets: nat, installments: nat, txs: seq<Tx>, id: TxId)
    requires id < |txs|
  {
    var t := txs[id];
    && t.amount > 0 && InTable(t.from, wallets) && InTable(t.to, wallets)
    && (IsPurchase(t) ==> t.to.Some? && (t.status == Completed ==> t.from.Some?))
    && (t.kind == Purchase && t.related.Some? ==> t.status == Reversed)
    && (t.status == Awaiting ==> t.kind == Deposit || t.kind == Purchase)
    && (t.status == Awaiting && t.from.Some? ==> IsPurchase(t))
    && (t.kind == Purchase || IsRepayment(t) || t.completes.Some? ==> t.key.Client? || t.key.SupportTopUp?)
    && (t.installment.Some? ==> t.kind == Deposit && t.completes.None? && t.installment.value < installments)
    && (t.settles.Some? ==> t.kind == Deposit && t.completes.None? && t.installment.None? && t.settles.value < wallets)
    && (t.completes.Some? ==> t.kind == Deposit && t.completes.value < id && IsPurchase(txs[t.completes.value])
                              && txs[t.completes.value].from.Some?)
    && (t.key.CreditFund? ==> t.kind == Transfer && t.key.purchase < id && t.from.Some?)
  }

  ghost predicate RowsOk(wallets: nat, installments: nat, txs: seq<Tx>) {
    forall id :: 0 <= id < |txs| ==> RowOk(wallets, installments, txs, id)
  }

  /** A plan belongs to a purchase that was completed, and nothing of it is unpaid after a refund. */
  predicate InstallmentOk(ws: seq<Wallet>, txs: seq<Tx>, i: Installment) {
    && i.wallet < |ws| && ws[i.wallet].repository.Some?
    && i.principal >= 0 && i.fee >= 0 && Accrued(i, ws[i.wallet].typ.terms.penaltyMilli)
    && i.purchase < |txs| && IsPurchase(txs[i.purchase]) && txs[i.purchase].from == Some(i.wallet)
    && txs[i.purchase].status != Awaiting
    && (txs[i.purchase].status == Reversed ==> !Unpaid(i))
  }

  ghost predicate InstallmentsOk(ws: seq<Wallet>, txs: seq<Tx>, installments: seq<Installment>) {
    forall i :: 0 <= i < |installments| ==> InstallmentOk(ws, txs, installments[i])
  }

  function CanceledUnder(p: TxId): Installment -> int {
    (i: Installment) => if i.purchase == p && i.status == Canceled then i.principal else 0
  }

  /** The principals planned for a purchase are exactly what it drew, and whatever of them was canceled
      has been given back. */
  ghost predicate PlansOk(txs: seq<Tx>, installments: seq<Installment>) {
    forall p :: 0 <= p < |txs| ==>
      && Sum(installments, PrincipalUnder(p)) == Drawn(txs, p)
      && (HasPlan(installments, p) ==> FindKey(txs, CreditFund(p)).Some?)
      && (Sum(installments, CanceledUnder(p)) > 0 ==> FindKey(txs, CreditFundReverse(p)).Some?)
  }

  /** Nothing is planned for a purchase that did not draw. */
  predicate PlansDrawn(txs: seq<Tx>, installments: seq<Installment>) {
    forall i :: 0 <= i < |installments| ==> FindKey(txs, CreditFund(installments[i].purchase)).Some?
  }

  /** Whoever settled an installment left the row that restored the ceiling. */
  ghost predicate PaidOk(txs: seq<Tx>, installments: seq<Installment>) {
    forall i :: 0 <= i < |installments| && installments[i].status == Paid ==>
      FindKey(txs, InstallmentRestore(i)).Some?
  }

  /** What a wallet owes on the ledger is the principal of its unpaid installments. */
  ghost predicate DebtsOk(j: Journal, installments: seq<Installment>) {
    forall w: WalletId :: Receivable(j, w) == Sum(installments, UnpaidOn(w))
  }

  function GrantedTo(w: WalletId): Tx -> int {
    (t: Tx) =>
      if t.kind != Virtual || t.from.None? || t.to.None? then 0
      else (if t.to == Some(w) then t.amount else 0) - (if t.from == Some(w) then t.amount else 0)
  }

  /** A credit wallet's grants less what was reclaimed, from the rows between it and its repository. */
  function Granted(txs: seq<Tx>, w: WalletId): int {
    Sum(txs, GrantedTo(w))
  }

  /** Remaining ceiling and debt together are what was granted. */
  ghost predicate LinesOk(ws: seq<Wallet>, txs: seq<Tx>, j: Journal) {
    forall w :: 0 <= w < |ws| && ws[w].repository.Some? ==>
      ws[w].virtualAmount + Receivable(j, w) == Granted(txs, w)
  }

  function HoldersOf(ws: seq<Wallet>): (hs: seq<Holder>)
    ensures |hs| == |ws|
  {
    seq(|ws|, w requires 0 <= w < |ws| => Holder(w, ws[w].typ.code, ws[w].typ.currency))
  }

  ghost predicate MoneyOk(ws: seq<Wallet>, j: Journal) {
    && FiledJournal(HoldersOf(ws), j) && Balanced(j)
    && forall w: WalletId :: Balance(j, w) >= 0
  }

  /** A split that cuts no purchase into a negative slice. */
  ghost predicate GoodSplit(rows: seq<SplitRow>) {
    |rows| > 0 && forall total: nat :: SlicesNonNegative(rows, total)
  }

  /** A charge's own split cuts that charge into no negative slice. */
  predicate OwnSplitGood(txs: seq<Tx>, p: TxId, rows: seq<SplitRow>) {
    p < |txs| && txs[p].kind == Purchase && |rows| > 0 && SlicesNonNegative(rows, txs[p].amount)
  }

  ghost predicate SplitsOk(txs: seq<Tx>, overrides: map<TxId, seq<SplitRow>>, defaults: map<WalletId, seq<SplitRow>>) {
    && (forall p :: p in overrides ==> OwnSplitGood(txs, p, overrides[p]))
    && (forall w :: w in defaults && |defaults[w]| > 0 ==> GoodSplit(defaults[w]))
  }

  lemma {:induction false} OwnSplitAdded(txs: seq<Tx>, overrides: map<TxId, seq<SplitRow>>, defaults: map<WalletId,
      seq<SplitRow>>,
                                         p: TxId, rows: seq<SplitRow>)
    requires SplitsOk(txs, overrides, defaults)
    ensures SplitsOk(txs, overrides[p := rows], defaults) <==> OwnSplitGood(txs, p, rows)
  {
    hide OwnSplitGood, GoodSplit;
    assert overrides[p := rows][p] == rows;
  }

  lemma {:induction false} DefaultsReplaced(txs: seq<Tx>, overrides: map<TxId, seq<SplitRow>>, defaults: map<WalletId,
      seq<SplitRow>>,
                                            w: WalletId, rows: seq<SplitRow>)
    requires SplitsOk(txs, overrides, defaults) && |rows| > 0
    ensures SplitsOk(txs, overrides, defaults[w := rows]) <==> GoodSplit(rows)
  {
    hide OwnSplitGood, GoodSplit;
    assert defaults[w := rows][w] == rows;
  }

  /** Splits are good as long as purchases stay purchases, at their price. */
  lemma {:induction false} SplitsStayGood(txs: seq<Tx>, later: seq<Tx>, overrides: map<TxId, seq<SplitRow>>,
                                          defaults: map<WalletId, seq<SplitRow>>)
    requires SplitsOk(txs, overrides, defaults) && |txs| <= |later|
    requires forall t :: 0 <= t < |txs| && txs[t].kind == Purchase ==>
        later[t].kind == Purchase && later[t].amount == txs[t].amount
    ensures SplitsOk(later, overrides, defaults)
  {
    hide SlicesNonNegative, GoodSplit;
    forall p | p in overrides ensures OwnSplitGood(later, p, overrides[p]) {
      assert OwnSplitGood(txs, p, overrides[p]);
    }
  }

  ghost predicate Inv(s: State) {
    && WalletsOk(s.wallets)
    && RowsOk(|s.wallets|, |s.installments|, s.txs)
    && InstallmentsOk(s.wallets, s.txs, s.installments)
    && PlansOk(s.txs, s.installments)
    && PaidOk(s.txs, s.installments)
    && DebtsOk(s.journal, s.installments)
    && LinesOk(s.wallets, s.txs, s.journal)
    && MoneyOk(s.wallets, s.journal)
    && SplitsOk(s.txs, s.overrides, s.defaults)
  }

  /** A credit line counts what is left of its ceiling and what is owed on it. */
  function Line(s: State, w: WalletId): int
    requires w < |s.wallets|
  {
    s.wallets[w].virtualAmount + Receivable(s.journal, w)
  }

  /** No line of an existing wallet gained or lost, and no new line was opened. */
  ghost predicate SameLines(s: State, s': State) {
    && |s.wallets| <= |s'.wallets|
    && (forall w :: 0 <= w < |s.wallets| ==> s'.wallets[w].repository == s.wallets[w].repository)
    && (forall w :: |s.wallets| <= w < |s'.wallets| ==> s'.wallets[w].repository.None?)
    && (forall w :: 0 <= w < |s.wallets| ==> Line(s', w) == Line(s, w))
  }

  /** The books still hold, and every credit line with its repository's pool is conserved. */
  ghost predicate Kept(s: State, s': State) {
    Inv(s') && SameLines(s, s')
  }

  lemma {:induction false} LinesThrough(a: State, b: State, c: State)
    requires SameLines(a, b) && SameLines(b, c)
    ensures SameLines(a, c)
  {
  }

  lemma {:induction false} LinesByMoney(s: State, s': State)
    requires s'.wallets == s.wallets && forall w: WalletId :: Receivable(s'.journal, w) == Receivable(s.journal, w)
    ensures SameLines(s, s')
  {
  }

  lemma {:induction false} WalletsAreLinked(ws: seq<Wallet>)
    requires WalletsOk(ws)
    ensures LinksOk(ws)
  {
    forall w | 0 <= w < |ws| ensures Linked(ws, w) {
      assert LinkOk(ws, w);
    }
  }

  // ---- Facts about single tables ----

  lemma {:induction false} InvRow(s: State, id: TxId)
    requires Inv(s) && id < |s.txs|
    ensures RowOk(|s.wallets|, |s.installments|, s.txs, id)
  {
  }

  lemma {:induction false} InvInstallment(s: State, i: nat)
    requires Inv(s) && i < |s.installments|
    ensures InstallmentOk(s.wallets, s.txs, s.installments[i])
  {
  }

  lemma {:induction false} InvMoney(s: State)
    requires Inv(s)
    ensures WalletsOk(s.wallets) && MoneyOk(s.wallets, s.journal) && RowsOk(|s.wallets|, |s.installments|, s.txs)
  {
  }

  lemma {:induction false} InvPlans(s: State)
    requires Inv(s)
    ensures PlansDrawn(s.txs, s.installments)
  {
    forall i | 0 <= i < |s.installments| ensures FindKey(s.txs, CreditFund(s.installments[i].purchase)).Some? {
      assert InstallmentOk(s.wallets, s.txs, s.installments[i]);
      assert HasPlan(s.installments, s.installments[i].purchase);
    }
  }

  lemma {:induction false} AcceptsExactly(legs: seq<Leg>)
    ensures Accepts(legs) <==> Acceptable(legs)
  {
    forall c: CurrencyId | Accepts(legs) ensures Sum(legs, SignedIn(c)) == 0 {
      if forall i :: 0 <= i < |legs| ==> legs[i].currency != c {
        AbsentCurrency(legs, c);
      }
    }
  }

  lemma {:induction false} FindKeySnoc(txs: seq<Tx>, t: Tx, key: Key)
    ensures FindKey(txs + [t], key) == if FindKey(txs, key).Some? then FindKey(txs, key)
                                       else if t.key == key then Some(|txs|) else None
  {
    assert (txs + [t])[..|txs|] == txs;
  }

  lemma {:induction false} FindKeyUpdate(txs: seq<Tx>, id: nat, t: Tx, key: Key)
    requires id < |txs| && t.key == txs[id].key
    ensures FindKey(txs[id := t], key) == FindKey(txs, key)
  {
    var n := |txs| - 1;
    if id < n {
      assert txs[id := t][..n] == txs[..n][id := t];
      FindKeyUpdate(txs[..n], id, t, key);
    } else {
      assert txs[id := t][..n] == txs[..n];
    }
  }

  lemma {:induction false} NoPlanYet(ws: seq<Wallet>, txs: seq<Tx>, installments: seq<Installment>, p: TxId)
    requires InstallmentsOk(ws, txs, installments) && p >= |txs|
    ensures Sum(installments, PrincipalUnder(p)) == 0 && Sum(installments, CanceledUnder(p)) == 0
        && !HasPlan(installments, p)
  {
    SumZero(installments, PrincipalUnder(p));
    SumZero(installments, CanceledUnder(p));
  }

  lemma {:induction false} NoDrawYet(wallets: nat, n: nat, txs: seq<Tx>, p: TxId)
    requires RowsOk(wallets, n, txs) && p >= |txs|
    ensures FindKey(txs, CreditFund(p)) == None && Drawn(txs, p) == 0
  {
    forall id | 0 <= id < |txs| ensures txs[id].key != CreditFund(p) {
      assert RowOk(wallets, n, txs, id);
    }
  }

  /** Appending a row that is neither a draw nor a grant. */
  lemma {:induction false} InsertKeeps(s: State, t: Tx)
    requires Inv(s)
    requires RowOk(|s.wallets|, |s.installments|, s.txs + [t], |s.txs|)
    requires !t.key.CreditFund? && (t.kind == Virtual ==> t.from.None? || t.to.None?)
    ensures Inv(s.(txs := s.txs + [t]))
  {
    var txs := s.txs + [t];
    forall id | 0 <= id < |txs| ensures RowOk(|s.wallets|, |s.installments|, txs, id) {
      if id < |s.txs| {
        assert RowOk(|s.wallets|, |s.installments|, s.txs, id);
      }
    }
    forall p | 0 <= p < |txs|
      ensures Sum(s.installments, PrincipalUnder(p)) == Drawn(txs, p)
      ensures HasPlan(s.installments, p) ==> FindKey(txs, CreditFund(p)).Some?
      ensures Sum(s.installments, CanceledUnder(p)) > 0 ==> FindKey(txs, CreditFundReverse(p)).Some?
    {
      FindKeySnoc(s.txs, t, CreditFund(p));
      FindKeySnoc(s.txs, t, CreditFundReverse(p));
      if p == |s.txs| {
        NoPlanYet(s.wallets, s.txs, s.installments, p);
        NoDrawYet(|s.wallets|, |s.installments|, s.txs, p);
      }
    }
    forall i | 0 <= i < |s.installments| && s.installments[i].status == Paid
      ensures FindKey(txs, InstallmentRestore(i)).Some?
    {
      FindKeySnoc(s.txs, t, InstallmentRestore(i));
    }
    forall w: WalletId ensures Granted(txs, w) == Granted(s.txs, w) {
      SumSnoc(s.txs, t, GrantedTo(w));
    }
  }

  /** Only the journal moved, no receivable with it, and no balance below zero. */
  ghost predicate MoneyStep(s: State, s': State) {
    && s' == s.(journal := s'.journal) && MoneyOk(s.wallets, s'.journal)
    && forall w: WalletId :: Receivable(s'.journal, w) == Receivable(s.journal, w)
  }

  lemma {:induction false} MoneyStepKeeps(s: State, s': State)
    requires Inv(s) && MoneyStep(s, s')
    ensures Inv(s')
  {
  }

  /** Posting an accepted entry, filed where it belongs, that leaves receivables alone and drives no
      balance below zero. */
  lemma {:induction false} PostStep(s: State, tx: TxId, legs: seq<Leg>)
    requires MoneyOk(s.wallets, s.journal) && Accepts(legs)
    requires forall k :: 0 <= k < |legs| ==> Filed(HoldersOf(s.wallets), legs[k])
    requires forall w: WalletId :: Sum(legs, OwedIn(w)) == 0
    requires forall w: WalletId :: Balance(s.journal, w) + Sum(legs, BalanceIn(w)) >= 0
    ensures Post(s, tx, legs).Ok? && MoneyStep(s, Post(s, tx, legs).value)
    ensures forall w: WalletId ::
              Balance(Post(s, tx, legs).value.journal, w) == Balance(s.journal, w) + Sum(legs, BalanceIn(w))
  {
    var e := Entry(tx, legs);
    AcceptsExactly(legs);
    AcceptedKeepsBalanced(s.journal, e);
    forall w: WalletId
      ensures Balance(s.journal + [e], w) == Balance(s.journal, w) + Sum(legs, BalanceIn(w))
      ensures Receivable(s.journal + [e], w) == Receivable(s.journal, w)
    {
      JournalSnoc(s.journal, e, BalanceIn(w));
      JournalSnoc(s.journal, e, OwedIn(w));
    }
  }

  /** How a row may change in place. */
  predicate MayReplace(installments: seq<Installment>, before: Tx, after: Tx, id: TxId) {
    && after.key == before.key && after.kind == before.kind && after.related == before.related
    && (before.kind != Virtual && !before.key.CreditFund?)
    && (before.from.Some? ==> after.from == before.from) && (before.kind == Purchase ==> after.amount == before.amount)
    && (after.status != before.status && IsPurchase(before) ==>
          && after.status != Awaiting
          && (after.status == Reversed ==> !HasUnpaid(installments, id)))
  }

  predicate HasUnpaid(installments: seq<Installment>, p: TxId) {
    exists i :: 0 <= i < |installments| && installments[i].purchase == p && Unpaid(installments[i])
  }

  lemma {:induction false} ReplacedRows(s: State, id: TxId, t: Tx)
    requires RowsOk(|s.wallets|, |s.installments|, s.txs) && id < |s.txs|
    requires MayReplace(s.installments, s.txs[id], t, id) && RowOk(|s.wallets|, |s.installments|, s.txs[id := t], id)
    ensures RowsOk(|s.wallets|, |s.installments|, s.txs[id := t])
  {
    var txs := s.txs[id := t];
    forall k | 0 <= k < |txs| ensures RowOk(|s.wallets|, |s.installments|, txs, k) {
      assert RowOk(|s.wallets|, |s.installments|, s.txs, k);
    }
  }

  lemma {:induction false} ReplacedPlans(s: State, id: TxId, t: Tx)
    requires InstallmentsOk(s.wallets, s.txs, s.installments) && PlansOk(s.txs, s.installments)
    requires PaidOk(s.txs, s.installments)
    requires id < |s.txs| && MayReplace(s.installments, s.txs[id], t, id)
    ensures InstallmentsOk(s.wallets, s.txs[id := t], s.installments) && PlansOk(s.txs[id := t], s.installments)
    ensures PaidOk(s.txs[id := t], s.installments)
  {
    hide FindKey, Accrued;
    var txs := s.txs[id := t];
    forall i | 0 <= i < |s.installments| ensures InstallmentOk(s.wallets, txs, s.installments[i]) {
      assert InstallmentOk(s.wallets, s.txs, s.installments[i]);
    }
    forall key: Key ensures FindKey(txs, key) == FindKey(s.txs, key) {
      FindKeyUpdate(s.txs, id, t, key);
    }
  }

  lemma {:induction false} ReplaceKeeps(s: State, id: TxId, t: Tx)
    requires Inv(s) && id < |s.txs| && MayReplace(s.installments, s.txs[id], t, id)
    requires RowOk(|s.wallets|, |s.installments|, s.txs[id := t], id)
    ensures Inv(s.(txs := s.txs[id := t]))
  {
    hide WalletsOk, RowsOk, InstallmentsOk, PlansOk, PaidOk, DebtsOk, MoneyOk, RowOk, SplitsOk;
    var txs := s.txs[id := t];
    ReplacedRows(s, id, t);
    ReplacedPlans(s, id, t);
    SplitsStayGood(s.txs, txs, s.overrides, s.defaults);
    forall w: WalletId ensures Granted(txs, w) == Granted(s.txs, w) {
      SumUpdate(s.txs, id, t, GrantedTo(w));
    }
  }

  /** Wallet rows keep their type and link; only ceilings and flags move. */
  predicate SameShape(ws: seq<Wallet>, vs: seq<Wallet>) {
    |ws| == |vs| && forall w :: 0 <= w < |ws| ==> vs[w].typ == ws[w].typ && vs[w].repository == ws[w].repository
  }

  lemma {:induction false} ShapeKeeps(ws: seq<Wallet>, vs: seq<Wallet>, txs: seq<Tx>, installments: seq<Installment>,
      j: Journal)
    requires SameShape(ws, vs)
    requires WalletsOk(ws) && InstallmentsOk(ws, txs, installments) && MoneyOk(ws, j)
    ensures forall w :: 0 <= w < |vs| ==> LinkOk(vs, w)
    ensures InstallmentsOk(vs, txs, installments) && MoneyOk(vs, j)
  {
    forall w | 0 <= w < |vs| ensures LinkOk(vs, w) {
      assert LinkOk(ws, w);
    }
    assert HoldersOf(vs) == HoldersOf(ws);
    forall i | 0 <= i < |installments| ensures InstallmentOk(vs, txs, installments[i]) {
      assert InstallmentOk(ws, txs, installments[i]);
    }
  }

  /** Flags (closed, blocked) can change freely. */
  lemma {:induction false} FlagsKeep(s: State, vs: seq<Wallet>)
    requires Inv(s) && SameShape(s.wallets, vs)
    requires forall w :: 0 <= w < |vs| ==> vs[w].virtualAmount == s.wallets[w].virtualAmount
    ensures Inv(s.(wallets := vs))
  {
    ShapeKeeps(s.wallets, vs, s.txs, s.installments, s.journal);
  }

  /** Only wallets that exist hold or owe anything. */
  lemma {:induction false} StrangersHoldNothing(hs: seq<Holder>, j: Journal, w: WalletId)
    requires FiledJournal(hs, j) && w >= |hs|
    ensures Balance(j, w) == 0 && Receivable(j, w) == 0
  {
    forall i | 0 <= i < |j| ensures OverLegs(BalanceIn(w))(j[i]) == 0 && OverLegs(OwedIn(w))(j[i]) == 0 {
      forall k | 0 <= k < |j[i].legs| ensures BalanceIn(w)(j[i].legs[k]) == 0 && OwedIn(w)(j[i].legs[k]) == 0 {
        assert Filed(hs, j[i].legs[k]);
      }
      SumZero(j[i].legs, BalanceIn(w));
      SumZero(j[i].legs, OwedIn(w));
    }
    SumZero(j, OverLegs(BalanceIn(w)));
    SumZero(j, OverLegs(OwedIn(w)));
  }
}
