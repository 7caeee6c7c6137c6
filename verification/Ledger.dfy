/** The double-entry ledger: journal entries are the only record of money, and every
    wallet balance and every receivable is a sum of their legs. */
module Ledger {
  import opened Common
  import opened Sums

  type CurrencyId = nat
  type WalletId = nat
  type TxId = nat

  datatype AccountCode =
    | BankCash
    | CustomerWallets
    | CreditReceivable
    | SettlementClearing
    | FeeRevenue
    | LedgerAdjustments
    | RepositoryAllocations
    | RepositoryFunds

  datatype Direction = Debit | Credit

  datatype TypeCode = Buy | Gift | CreditLine | Merchant | Repository | Support | MerchantRepository

  /** What a wallet-mapped leg needs to know about its wallet. */
  datatype Holder = Holder(id: WalletId, code: TypeCode, currency: CurrencyId)

  datatype Leg = Leg(code: AccountCode, currency: CurrencyId, direction: Direction, amount: int,
                     wallet: Option<WalletId>)

  datatype Entry = Entry(tx: TxId, legs: seq<Leg>)

  type Journal = seq<Entry>

  datatype Movement = Movement(holder: Holder, amount: int)

  function AccountFor(code: TypeCode): AccountCode {
    match code
    case MerchantRepository => FeeRevenue
    case Repository => RepositoryFunds
    case _ => CustomerWallets
  }

  function Opposite(d: Direction): Direction {
    if d == Credit then Debit else Credit
  }

  function WalletLeg(h: Holder, delta: int): Leg {
    Leg(AccountFor(h.code), h.currency, if delta > 0 then Credit else Debit, Abs(delta), Some(h.id))
  }

  /** A wallet leg and its counter leg on an account no wallet owns: a cash movement, an
      admin adjustment, or the mirror of a repository-backed wallet's own balance. */
  function Against(h: Holder, delta: int, counter: AccountCode): seq<Leg> {
    var leg := WalletLeg(h, delta);
    [leg, Leg(counter, h.currency, Opposite(leg.direction), leg.amount, None)]
  }

  function WalletToWallet(source: Holder, target: Holder, amount: int): seq<Leg> {
    [WalletLeg(source, -amount), WalletLeg(target, amount)]
  }

  /** A draw on a credit line (delta > 0) or principal coming off it (delta < 0). */
  function ReceivableLegs(h: Holder, delta: int): seq<Leg> {
    var direction := if delta > 0 then Debit else Credit;
    [Leg(CreditReceivable, h.currency, direction, Abs(delta), Some(h.id)),
     Leg(RepositoryAllocations, h.currency, Opposite(direction), Abs(delta), None)]
  }

  /** One wallet leg per movement, in the movements' order; empty movements are dropped. */
  function MovementLegs(ms: seq<Movement>, sign: int): seq<Leg> {
    if |ms| == 0 then []
    else
      var init := MovementLegs(ms[..|ms| - 1], sign);
      var m := ms[|ms| - 1];
      if m.amount > 0 then init + [WalletLeg(m.holder, sign * m.amount)] else init
  }

  function MultiLegs(debits: seq<Movement>, credits: seq<Movement>): seq<Leg> {
    MovementLegs(debits, -1) + MovementLegs(credits, 1)
  }

  function CashInLegs(cash: AccountCode, currency: CurrencyId, total: int, credits: seq<Movement>): seq<Leg> {
    [Leg(cash, currency, Debit, total, None)] + MovementLegs(credits, 1)
  }

  // ---- What a leg weighs in each of the sums read off the journal ----

  function SignedIn(c: CurrencyId): Leg -> int {
    (l: Leg) => if l.currency != c then 0 else if l.direction == Debit then l.amount else -l.amount
  }

  function BalanceIn(w: WalletId): Leg -> int {
    (l: Leg) => if l.wallet != Some(w) || l.code == CreditReceivable then 0
         else if l.direction == Credit then l.amount else -l.amount
  }

  function OwedIn(w: WalletId): Leg -> int {
    (l: Leg) => if l.wallet != Some(w) || l.code != CreditReceivable then 0
         else if l.direction == Debit then l.amount else -l.amount
  }

  function NetIn(code: AccountCode, c: CurrencyId): Leg -> int {
    (l: Leg) => if l.code != code then 0 else SignedIn(c)(l)
  }

  function OverLegs(f: Leg -> int): Entry -> int {
    (e: Entry) => Sum(e.legs, f)
  }

  function JournalSum(j: Journal, f: Leg -> int): int {
    Sum(j, OverLegs(f))
  }

  /** A wallet's balance; receivable legs track what it owes, not what it holds. */
  function Balance(j: Journal, w: WalletId): int {
    JournalSum(j, BalanceIn(w))
  }

  function Receivable(j: Journal, w: WalletId): int {
    JournalSum(j, OwedIn(w))
  }

  /** The net (debit minus credit) of one account in a trial balance. */
  function AccountNet(j: Journal, code: AccountCode, c: CurrencyId): int {
    JournalSum(j, NetIn(code, c))
  }

  /** Entries that touch a balance, as opposed to those that only track what a line owes. */
  predicate MovesMoney(e: Entry) {
    exists k :: 0 <= k < |e.legs| && e.legs[k].wallet.Some? && e.legs[k].code != CreditReceivable
  }

  ghost predicate Balanced(j: Journal) {
    forall c: CurrencyId :: JournalSum(j, SignedIn(c)) == 0
  }

  lemma {:induction false} JournalSnoc(j: Journal, e: Entry, f: Leg -> int)
    ensures JournalSum(j + [e], f) == JournalSum(j, f) + Sum(e.legs, f)
  {
    SumSnoc(j, e, OverLegs(f));
  }

  // ---- Which entries are accepted ----

  ghost predicate Acceptable(legs: seq<Leg>) {
    && |legs| >= 2
    && (forall i :: 0 <= i < |legs| ==> legs[i].amount > 0)
    && (forall c: CurrencyId :: Sum(legs, SignedIn(c)) == 0)
  }

  lemma {:induction false} AbsentCurrency(legs: seq<Leg>, c: CurrencyId)
    requires forall i :: 0 <= i < |legs| ==> legs[i].currency != c
    ensures Sum(legs, SignedIn(c)) == 0
  {
    SumZero(legs, SignedIn(c));
  }

  /** Whatever entry is accepted, debits go on equalling credits in every currency. */
  lemma {:induction false} AcceptedKeepsBalanced(j: Journal, e: Entry)
    requires Balanced(j) && Acceptable(e.legs)
    ensures Balanced(j + [e])
  {
    forall c: CurrencyId
      ensures JournalSum(j + [e], SignedIn(c)) == 0
    {
      JournalSnoc(j, e, SignedIn(c));
    }
  }

  // ---- What the entry builders do to the sums ----

  lemma {:induction false} AgainstEffect(h: Holder, delta: int, counter: AccountCode)
    requires delta != 0 && counter != CreditReceivable
    ensures Acceptable(Against(h, delta, counter))
    ensures forall w :: Sum(Against(h, delta, counter), BalanceIn(w)) == if w == h.id then delta else 0
    ensures forall w :: Sum(Against(h, delta, counter), OwedIn(w)) == 0
  {
    var legs := Against(h, delta, counter);
    forall f: Leg -> int ensures Sum(legs, f) == f(legs[0]) + f(legs[1]) {
      SumPair(legs[0], legs[1], f);
    }
  }

  lemma {:induction false} ReceivableEffect(h: Holder, delta: int)
    requires delta != 0
    ensures Acceptable(ReceivableLegs(h, delta))
    ensures forall w :: Sum(ReceivableLegs(h, delta), BalanceIn(w)) == 0
    ensures forall w :: Sum(ReceivableLegs(h, delta), OwedIn(w)) == if w == h.id then delta else 0
  {
    var legs := ReceivableLegs(h, delta);
    forall f: Leg -> int ensures Sum(legs, f) == f(legs[0]) + f(legs[1]) {
      SumPair(legs[0], legs[1], f);
    }
  }

  function Moved(w: WalletId): Movement -> int {
    (m: Movement) => if m.holder.id == w && m.amount > 0 then m.amount else 0
  }

  function MovedIn(c: CurrencyId): Movement -> int {
    (m: Movement) => if m.holder.currency == c && m.amount > 0 then m.amount else 0
  }

  lemma {:induction false} MovementEffect(ms: seq<Movement>, sign: int)
    requires sign == 1 || sign == -1
    ensures forall w :: Sum(MovementLegs(ms, sign), BalanceIn(w)) == sign * Sum(ms, Moved(w))
    ensures forall w :: Sum(MovementLegs(ms, sign), OwedIn(w)) == 0
    ensures forall c :: Sum(MovementLegs(ms, sign), SignedIn(c)) == -sign * Sum(ms, MovedIn(c))
    ensures forall i :: 0 <= i < |MovementLegs(ms, sign)| ==> MovementLegs(ms, sign)[i].amount > 0
  {
    if |ms| > 0 {
      var init, m := ms[..|ms| - 1], ms[|ms| - 1];
      MovementEffect(init, sign);
      var leg := WalletLeg(m.holder, sign * m.amount);
      forall f: Leg -> int ensures Sum(MovementLegs(init, sign) + [leg], f)
          == Sum(MovementLegs(init, sign), f) + f(leg) {
        SumSnoc(MovementLegs(init, sign), leg, f);
      }
    }
  }

  lemma {:induction false} FirstMovementLeg(ms: seq<Movement>, sign: int)
    requires |ms| > 0 && ms[0].amount > 0
    ensures |MovementLegs(ms, sign)| > 0 && MovementLegs(ms, sign)[0] == WalletLeg(ms[0].holder, sign * ms[0].amount)
  {
    if |ms| > 1 {
      FirstMovementLeg(ms[..|ms| - 1], sign);
    } else {
      assert ms[..0] == [];
    }
  }

  /** Money moved between wallets: each balance moves by what it received less what it paid. */
  lemma {:induction false} MultiEffect(debits: seq<Movement>, credits: seq<Movement>)
    ensures forall w :: Sum(MultiLegs(debits, credits), BalanceIn(w)) == Sum(credits, Moved(w)) - Sum(debits, Moved(w))
    ensures forall w :: Sum(MultiLegs(debits, credits), OwedIn(w)) == 0
    ensures forall c ::
        Sum(MultiLegs(debits, credits), SignedIn(c)) == Sum(debits, MovedIn(c)) - Sum(credits, MovedIn(c))
    ensures forall i :: 0 <= i < |MultiLegs(debits, credits)| ==> MultiLegs(debits, credits)[i].amount > 0
  {
    MovementEffect(debits, -1);
    MovementEffect(credits, 1);
    forall f: Leg -> int
      ensures Sum(MultiLegs(debits, credits), f) == Sum(MovementLegs(debits, -1), f) + Sum(MovementLegs(credits, 1), f)
    {
      SumConcat(MovementLegs(debits, -1), MovementLegs(credits, 1), f);
    }
  }

  /** Cash landing on several wallets: accepted exactly when the credits add up to it. */
  lemma {:induction false} CashInEffect(cash: AccountCode, currency: CurrencyId, total: int, credits: seq<Movement>)
    requires cash == BankCash || cash == SettlementClearing
    ensures forall w :: Sum(CashInLegs(cash, currency, total, credits), BalanceIn(w)) == Sum(credits, Moved(w))
    ensures forall w :: Sum(CashInLegs(cash, currency, total, credits), OwedIn(w)) == 0
    ensures forall c :: Sum(CashInLegs(cash, currency, total, credits), SignedIn(c))
                     == (if c == currency then total else 0) - Sum(credits, MovedIn(c))
    ensures Acceptable(CashInLegs(cash, currency, total, credits)) ==> total == Sum(credits, MovedIn(currency))
  {
    MovementEffect(credits, 1);
    var head := Leg(cash, currency, Debit, total, None);
    forall f: Leg -> int
      ensures Sum(CashInLegs(cash, currency, total, credits), f) == f(head) + Sum(MovementLegs(credits, 1), f)
    {
      SumConcat([head], MovementLegs(credits, 1), f);
      assert [head][..0] == [];
      assert Sum([head], f) == Sum([head][..0], f) + f(head);
    }
  }

  // ---- Exchanging the order of summation: accounts or wallets against legs ----

  function AtLeg<H>(g: H -> Leg -> int, l: Leg): H -> int {
    (h: H) => g(h)(l)
  }

  function AcrossLegs<H>(g: H -> Leg -> int, legs: seq<Leg>): H -> int {
    (h: H) => Sum(legs, g(h))
  }

  function AcrossJournal<H>(g: H -> Leg -> int, j: Journal): H -> int {
    (h: H) => JournalSum(j, g(h))
  }

  lemma {:induction false} ExchangeLegs<H>(hs: seq<H>, legs: seq<Leg>, f: Leg -> int, g: H -> Leg -> int)
    requires forall i :: 0 <= i < |legs| ==> f(legs[i]) == Sum(hs, AtLeg(g, legs[i]))
    ensures Sum(legs, f) == Sum(hs, AcrossLegs(g, legs))
  {
    if |legs| == 0 {
      SumZero(hs, AcrossLegs(g, legs));
    } else {
      var init, l := legs[..|legs| - 1], legs[|legs| - 1];
      ExchangeLegs(hs, init, f, g);
      SumSplit(hs, AcrossLegs(g, legs), AcrossLegs(g, init), AtLeg(g, l));
    }
  }

  /** If every leg weighs as much in `f` as it does across `hs` in `g`, so does the journal. */
  lemma {:induction false} Exchange<H>(hs: seq<H>, j: Journal, f: Leg -> int, g: H -> Leg -> int)
    requires forall i, k :: 0 <= i < |j| && 0 <= k < |j[i].legs| ==> f(j[i].legs[k]) == Sum(hs, AtLeg(g, j[i].legs[k]))
    ensures JournalSum(j, f) == Sum(hs, AcrossJournal(g, j))
  {
    if |j| == 0 {
      SumZero(hs, AcrossJournal(g, j));
    } else {
      var init, e := j[..|j| - 1], j[|j| - 1];
      forall i, k | 0 <= i < |init| && 0 <= k < |init[i].legs|
        ensures f(init[i].legs[k]) == Sum(hs, AtLeg(g, init[i].legs[k]))
      {
        assert init[i] == j[i];
      }
      Exchange(hs, init, f, g);
      ExchangeLegs(hs, e.legs, f, g);
      SumSplit(hs, AcrossJournal(g, j), AcrossJournal(g, init), AcrossLegs(g, e.legs));
    }
  }

  function NoWeight(): Leg -> int {
    (l: Leg) => 0
  }

  lemma {:induction false} NoWeightSum(j: Journal)
    ensures JournalSum(j, NoWeight()) == 0
  {
    forall i | 0 <= i < |j| ensures OverLegs(NoWeight())(j[i]) == 0 {
      SumZero(j[i].legs, NoWeight());
    }
    SumZero(j, OverLegs(NoWeight()));
  }

  // ---- The trial balance ----

  const CHART: seq<AccountCode> := [BankCash, CustomerWallets, CreditReceivable, SettlementClearing, FeeRevenue,
                                    LedgerAdjustments, RepositoryAllocations, RepositoryFunds]

  function NetOf(c: CurrencyId): AccountCode -> Leg -> int {
    (a: AccountCode) => NetIn(a, c)
  }

  function NetRow(j: Journal, c: CurrencyId): AccountCode -> int {
    (a: AccountCode) => AccountNet(j, a, c)
  }

  function ZeroOf<H>(): H -> int {
    (h: H) => 0
  }

  lemma {:induction false} ChartCoversLeg(l: Leg, c: CurrencyId)
    ensures Sum(CHART, AtLeg(NetOf(c), l)) == SignedIn(c)(l)
  {
    var k := match l.code
      case BankCash => 0
      case CustomerWallets => 1
      case CreditReceivable => 2
      case SettlementClearing => 3
      case FeeRevenue => 4
      case LedgerAdjustments => 5
      case RepositoryAllocations => 6
      case RepositoryFunds => 7;
    SumDiff(CHART, CHART, ZeroOf<AccountCode>(), AtLeg(NetOf(c), l), k);
    SumZero(CHART, ZeroOf<AccountCode>());
  }

  /** The trial balance always nets to zero: its rows add up to debits less credits. */
  lemma {:induction false} TrialBalanceNetsToZero(j: Journal, c: CurrencyId)
    ensures Sum(CHART, NetRow(j, c)) == JournalSum(j, SignedIn(c))
    ensures Balanced(j) ==> Sum(CHART, NetRow(j, c)) == 0
  {
    forall i, k | 0 <= i < |j| && 0 <= k < |j[i].legs|
      ensures SignedIn(c)(j[i].legs[k]) == Sum(CHART, AtLeg(NetOf(c), j[i].legs[k]))
    {
      ChartCoversLeg(j[i].legs[k], c);
    }
    Exchange(CHART, j, SignedIn(c), NetOf(c));
    SumSame(CHART, CHART, AcrossJournal(NetOf(c), j), NetRow(j, c));
  }

  // ---- The control accounts against the wallets filed under them ----

  /** A leg is tagged with a wallet exactly when its account is wallet-mapped, and then it sits in
      the account and the currency that wallet's type says (or in the receivable account). */
  predicate Filed(hs: seq<Holder>, l: Leg) {
    match l.wallet
    case None => l.code == BankCash || l.code == SettlementClearing || l.code == LedgerAdjustments
                 || l.code == RepositoryAllocations
    case Some(w) => w < |hs| && l.currency == hs[w].currency
                    && (l.code == CreditReceivable || l.code == AccountFor(hs[w].code))
  }

  ghost predicate FiledJournal(hs: seq<Holder>, j: Journal) {
    && (forall i :: 0 <= i < |hs| ==> hs[i].id == i)
    && (forall i, k :: 0 <= i < |j| && 0 <= k < |j[i].legs| ==> Filed(hs, j[i].legs[k]))
  }

  predicate Under(code: AccountCode, c: CurrencyId, h: Holder) {
    h.currency == c && AccountFor(h.code) == code
  }

  function BalancesUnder(code: AccountCode, c: CurrencyId): Holder -> Leg -> int {
    (h: Holder) => if Under(code, c, h) then BalanceIn(h.id) else NoWeight()
  }

  function DebtsUnder(c: CurrencyId): Holder -> Leg -> int {
    (h: Holder) => if h.currency == c then OwedIn(h.id) else NoWeight()
  }

  function BalanceRow(j: Journal, code: AccountCode, c: CurrencyId): Holder -> int {
    (h: Holder) => if Under(code, c, h) then Balance(j, h.id) else 0
  }

  function ReceivableRow(j: Journal, c: CurrencyId): Holder -> int {
    (h: Holder) => if h.currency == c then Receivable(j, h.id) else 0
  }

  function CreditNetIn(code: AccountCode, c: CurrencyId): Leg -> int {
    (l: Leg) => -NetIn(code, c)(l)
  }

  lemma {:induction false} LegUnderOneWallet(hs: seq<Holder>, l: Leg, f: Holder -> Leg -> int, target: int)
    requires forall i :: 0 <= i < |hs| ==> hs[i].id == i
    requires l.wallet.Some? ==> l.wallet.value < |hs| && f(hs[l.wallet.value])(l) == target
    requires l.wallet.None? ==> target == 0
    requires forall h: Holder :: l.wallet != Some(h.id) ==> f(h)(l) == 0
    ensures Sum(hs, AtLeg(f, l)) == target
  {
    if l.wallet.Some? {
      SumDiff(hs, hs, ZeroOf<Holder>(), AtLeg(f, l), l.wallet.value);
      SumZero(hs, ZeroOf<Holder>());
    } else {
      SumZero(hs, AtLeg(f, l));
    }
  }

  /** Customer wallets, repository funds and fee revenue: the credit net of the control account is
      the sum of the balances of the wallets mapped to it. */
  lemma {:induction false} ControlAccountReconciles(hs: seq<Holder>, j: Journal, code: AccountCode, c: CurrencyId)
    requires FiledJournal(hs, j)
    requires code == CustomerWallets || code == RepositoryFunds || code == FeeRevenue
    ensures -AccountNet(j, code, c) == Sum(hs, BalanceRow(j, code, c))
  {
    var f, g := CreditNetIn(code, c), BalancesUnder(code, c);
    forall i, k | 0 <= i < |j| && 0 <= k < |j[i].legs|
      ensures f(j[i].legs[k]) == Sum(hs, AtLeg(g, j[i].legs[k]))
    {
      var l := j[i].legs[k];
      assert Filed(hs, l);
      assert f(l) == -NetIn(code, c)(l) && NetIn(code, c)(l) == if l.code != code then 0 else SignedIn(c)(l);
      LegUnderOneWallet(hs, l, g, f(l));
    }
    Exchange(hs, j, f, g);
    NoWeightSum(j);
    SumSame(hs, hs, AcrossJournal(g, j), BalanceRow(j, code, c));
    SumOpposite(j, code, c);
  }

  lemma {:induction false} SumOpposite(j: Journal, code: AccountCode, c: CurrencyId)
    ensures JournalSum(j, CreditNetIn(code, c)) == -AccountNet(j, code, c)
  {
    forall i | 0 <= i < |j|
      ensures OverLegs(NoWeight())(j[i]) == OverLegs(CreditNetIn(code, c))(j[i]) + OverLegs(NetIn(code, c))(j[i])
    {
      SumSplit(j[i].legs, NoWeight(), CreditNetIn(code, c), NetIn(code, c));
    }
    SumSplit(j, OverLegs(NoWeight()), OverLegs(CreditNetIn(code, c)), OverLegs(NetIn(code, c)));
    NoWeightSum(j);
  }

  /** The debit net of the receivable account is what all the credit wallets together owe. */
  lemma {:induction false} ReceivableAccountReconciles(hs: seq<Holder>, j: Journal, c: CurrencyId)
    requires FiledJournal(hs, j)
    ensures AccountNet(j, CreditReceivable, c) == Sum(hs, ReceivableRow(j, c))
  {
    var f, g := NetIn(CreditReceivable, c), DebtsUnder(c);
    forall i, k | 0 <= i < |j| && 0 <= k < |j[i].legs|
      ensures f(j[i].legs[k]) == Sum(hs, AtLeg(g, j[i].legs[k]))
    {
      var l := j[i].legs[k];
      assert Filed(hs, l);
      assert f(l) == if l.code != CreditReceivable then 0 else SignedIn(c)(l);
      LegUnderOneWallet(hs, l, g, f(l));
    }
    Exchange(hs, j, f, g);
    NoWeightSum(j);
    SumSame(hs, hs, AcrossJournal(g, j), ReceivableRow(j, c));
  }

  // ---- The balance-change events ----

  datatype BalanceChanged = BalanceChanged(wallet: WalletId, delta: int, tx: TxId)

  function EventsOf(e: Entry): seq<BalanceChanged> {
    EventsOfLegs(e.tx, e.legs)
  }

  function EventsOfLegs(tx: TxId, legs: seq<Leg>): seq<BalanceChanged> {
    if |legs| == 0 then []
    else
      var init, l := EventsOfLegs(tx, legs[..|legs| - 1]), legs[|legs| - 1];
      if l.wallet.None? || l.code == CreditReceivable then init
      else init + [BalanceChanged(l.wallet.value, if l.direction == Credit then l.amount else -l.amount, tx)]
  }

  function DeltaFor(w: WalletId): BalanceChanged -> int {
    (b: BalanceChanged) => if b.wallet == w then b.delta else 0
  }

  lemma {:induction false} EventsFollowLegs(tx: TxId, legs: seq<Leg>, w: WalletId)
    ensures Sum(EventsOfLegs(tx, legs), DeltaFor(w)) == Sum(legs, BalanceIn(w))
  {
    if |legs| > 0 {
      var init, l := legs[..|legs| - 1], legs[|legs| - 1];
      EventsFollowLegs(tx, init, w);
      if l.wallet.Some? && l.code != CreditReceivable {
        SumSnoc(EventsOfLegs(tx, init),
                BalanceChanged(l.wallet.value, if l.direction == Credit then l.amount else -l.amount, tx), DeltaFor(w));
      }
    }
  }

  /** Everything the service has emitted while writing a journal. */
  function EventsOfJournal(j: Journal): seq<BalanceChanged> {
    if |j| == 0 then [] else EventsOfJournal(j[..|j| - 1]) + EventsOf(j[|j| - 1])
  }

  /** Folding the deltas of a journal's entries from zero gives every wallet's derived balance. */
  lemma {:induction false} EventsFollowBalances(j: Journal, w: WalletId)
    ensures Sum(EventsOfJournal(j), DeltaFor(w)) == Balance(j, w)
  {
    if |j| > 0 {
      var init, e := j[..|j| - 1], j[|j| - 1];
      EventsFollowBalances(init, w);
      EventsFollowLegs(e.tx, e.legs, w);
      SumConcat(EventsOfJournal(init), EventsOf(e), DeltaFor(w));
      JournalSnoc(init, e, BalanceIn(w));
      assert init + [e] == j;
    }
  }
}
