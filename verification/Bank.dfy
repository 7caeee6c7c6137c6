/** The money engine's tables and what each request does to them. Row ids are positions. A request
    that fails leaves the tables as they were: it runs inside one database transaction. */
module Bank {
  import opened Common
  import opened Sums
  import opened Ledger
  import opened Installments
  import opened Settlement

  datatype WalletType = WalletType(
    code: TypeCode, currency: CurrencyId,
    allowWithdraw: bool, allowP2pOut: bool, allowP2pIn: bool, supportsAutoWithdraw: bool,
    allowPurchaseOut: bool, allowPurchaseIn: bool, depositable: bool,
    terms: Terms, withdrawalMethods: seq<Method>)

  datatype Wallet = Wallet(
    typ: WalletType, user: nat, repository: Option<WalletId>, virtualAmount: int,
    closed: bool, blocked: bool, rail: Option<nat>)

  datatype TxKind = Deposit | Withdraw | Transfer | Adjustment | Purchase | Virtual

  datatype TxStatus = Awaiting | Completed | Reversed

  datatype Slice = FeeSlice | PenaltySlice | UnblockSlice

  /** Idempotency keys, unique over all transactions: two of them are equal exactly when they read alike. */
  datatype Key =
    | Client(key: string)
    | SupportFund(purchase: TxId)
    | CreditFund(purchase: TxId)
    | CreditFundReverse(purchase: TxId)
    | CreditDraw(purchase: TxId)
    | CreditDrawReverse(purchase: TxId)
    | RepaymentSlice(repayment: TxId, slice: Slice)
    | OverdueAbsorb(text: string)
    | QuitAbsorb(text: string)
    | InstallmentRestore(installment: nat)
    | SupportTopUp(purchase: TxId, attempt: nat)
    | Sweep(wallet: WalletId, minute: nat)
    | SweepSlice(wallet: WalletId, purchase: TxId, index: nat, minute: nat)
    | PayoutFee(payout: Key)

  datatype Tx = Tx(
    kind: TxKind, status: TxStatus, from: Option<WalletId>, to: Option<WalletId>, amount: int, key: Key,
    expires: Option<int>, related: Option<TxId>, installment: Option<nat>, settles: Option<WalletId>,
    completes: Option<TxId>, settled: bool, cleared: bool)

  datatype State = State(
    wallets: seq<Wallet>,
    txs: seq<Tx>,
    installments: seq<Installment>,
    journal: Journal,
    defaults: map<WalletId, seq<SplitRow>>,
    overrides: map<TxId, seq<SplitRow>>,
    supportTypes: map<CurrencyId, WalletType>)

  /** A plain row; the requests that need more fill it in. */
  function Row(kind: TxKind, status: TxStatus, from: Option<WalletId>, to: Option<WalletId>, amount: int,
      key: Key): Tx {
    Tx(kind, status, from, to, amount, key, None, None, None, None, None, false, true)
  }

  // ---- Tables ----

  function FindKey(txs: seq<Tx>, key: Key): (r: Option<TxId>)
    ensures r.Some? ==> r.value < |txs| && txs[r.value].key == key
    ensures r.None? ==> forall i :: 0 <= i < |txs| ==> txs[i].key != key
  {
    if |txs| == 0 then None
    else
      var init := FindKey(txs[..|txs| - 1], key);
      if init.Some? then init else if txs[|txs| - 1].key == key then Some(|txs| - 1) else None
  }

  /** Every transaction row has a positive amount and a key of its own. */
  function Insert(s: State, t: Tx): Result<State> {
    if t.amount <= 0 then Fail(AmountNotPositive)
    else
      :- Check(FindKey(s.txs, t.key).None?, DuplicateKey);
      Ok(s.(txs := s.txs + [t]))
  }

  predicate Accepts(legs: seq<Leg>) {
    && |legs| >= 2
    && (forall i :: 0 <= i < |legs| ==> legs[i].amount > 0)
    && (forall i :: 0 <= i < |legs| ==> Sum(legs, SignedIn(legs[i].currency)) == 0)
  }

  function Post(s: State, tx: TxId, legs: seq<Leg>): Result<State> {
    if !Accepts(legs) then Fail(Unbalanced)
    else Ok(s.(journal := s.journal + [Entry(tx, legs)]))
  }

  function SetStatus(s: State, id: TxId, status: TxStatus): State
    requires id < |s.txs|
  {
    s.(txs := s.txs[id := s.txs[id].(status := status)])
  }

  function SetVirtual(s: State, w: WalletId, amount: int): State
    requires w < |s.wallets|
  {
    s.(wallets := s.wallets[w := s.wallets[w].(virtualAmount := amount)])
  }

  function Own(s: State, w: WalletId): Holder
    requires w < |s.wallets|
  {
    Holder(w, s.wallets[w].typ.code, s.wallets[w].typ.currency)
  }

  function WalletAt(s: State, w: WalletId): Result<Wallet> {
    if w < |s.wallets| then Ok(s.wallets[w]) else Fail(NotFound)
  }

  function OwnedWallet(s: State, user: nat, w: WalletId): Result<Wallet> {
    var wallet :- WalletAt(s, w);
    :- Check(wallet.user == user, Forbidden);
    Ok(wallet)
  }

  /** Real money of a repository-backed wallet moves on its repository. */
  function LedgerHolder(s: State, w: WalletId): Result<Holder>
    requires w < |s.wallets|
  {
    match s.wallets[w].repository
    case None => Ok(Own(s, w))
    case Some(r) => if r < |s.wallets| then Ok(Own(s, r)) else Fail(NotFound)
  }

  function RepositoryCanFund(s: State, w: WalletId, amount: int): Guard
    requires w < |s.wallets|
  {
    match s.wallets[w].repository
    case None => Pass
    case Some(r) => if r >= |s.wallets| then Stop(NotFound)
        else Check(Balance(s.journal, r) - amount >= 0, RepositoryShort)
  }

  /** The second, self-balancing entry that moves a repository-backed wallet's own balance. */
  function Mirror(s: State, tx: TxId, w: WalletId, delta: int): Result<State>
    requires w < |s.wallets|
  {
    if s.wallets[w].repository.None? || delta == 0 then Ok(s)
    else Post(s, tx, Against(Own(s, w), delta, RepositoryAllocations))
  }

  function PostReceivable(s: State, tx: TxId, w: WalletId, delta: int): Result<State>
    requires w < |s.wallets|
  {
    if delta == 0 then Ok(s) else Post(s, tx, ReceivableLegs(Own(s, w), delta))
  }

  // ---- Withdrawals, transfers, adjustments ----

  function CashAccount(cleared: bool): AccountCode {
    if cleared then BankCash else SettlementClearing
  }

  /** Real money out of a wallet (its repository's, if it has one), then the mirror on its own balance. */
  function PayCash(s: State, tx: TxId, w: WalletId, amount: int, cash: AccountCode): Result<State>
    requires w < |s.wallets|
  {
    var holder :- LedgerHolder(s, w);
    var s1 :- Post(s, tx, Against(holder, -amount, cash));
    Mirror(s1, tx, w, -amount)
  }

  function PayIn(s: State, tx: TxId, w: WalletId, amount: int): (r: Result<State>)
    requires w < |s.wallets|
    ensures r.Ok? ==> r.value == s.(journal := r.value.journal)
  {
    var holder :- LedgerHolder(s, w);
    var s1 :- Post(s, tx, Against(holder, amount, BankCash));
    Mirror(s1, tx, w, amount)
  }

  function PayWallet(s: State, tx: TxId, from: WalletId, to: WalletId, amount: int): Result<State>
    requires from < |s.wallets| && to < |s.wallets|
  {
    var holder :- LedgerHolder(s, from);
    var s1 :- Post(s, tx, WalletToWallet(holder, Own(s, to), amount));
    Mirror(s1, tx, from, -amount)
  }

  function WithdrawFrom(s: State, user: nat, w: WalletId, amount: int, cleared: bool, key: string): Result<State> {
    var wallet :- OwnedWallet(s, user, w);
    :- Check(!wallet.closed, WalletClosed);
    :- Check(!wallet.blocked, WalletBlocked);
    :- Check(!wallet.typ.supportsAutoWithdraw, Forbidden);
    :- Check(wallet.typ.allowWithdraw, NotSupported);
    :- Check(Balance(s.journal, w) - amount >= 0, InsufficientBalance);
    :- RepositoryCanFund(s, w, amount);
    var tx := |s.txs|;
    var s1 :- Insert(s, Row(Withdraw, Completed, Some(w), None, amount, Client(key)).(cleared := cleared));
    PayCash(s1, tx, w, amount, CashAccount(cleared))
  }

  function TransferTo(s: State, user: nat, from: WalletId, to: WalletId, amount: int, key: string): Result<State> {
    var source :- OwnedWallet(s, user, from);
    :- Check(!source.closed, WalletClosed);
    :- Check(!source.blocked, WalletBlocked);
    :- Check(source.typ.allowP2pOut, NotSupported);
    var target :- WalletAt(s, to);
    :- Check(target.user != user, InvalidRequest);
    :- Check(target.typ.allowP2pIn && !target.closed && target.typ.currency == source.typ.currency, NotFound);
    :- Check(Balance(s.journal, from) - amount >= 0, InsufficientBalance);
    :- RepositoryCanFund(s, from, amount);
    var tx := |s.txs|;
    var s1 :- Insert(s, Row(Transfer, Completed, Some(from), Some(to), amount, Client(key)));
    PayWallet(s1, tx, from, to, amount)
  }

  function Adjust(s: State, w: WalletId, amount: int, key: string): Result<State> {
    if amount == 0 then Fail(InvalidRequest)
    else
      var wallet :- WalletAt(s, w);
      :- Check(!wallet.closed, WalletClosed);
      :- Check(Balance(s.journal, w) + amount >= 0, InsufficientBalance);
      var tx := |s.txs|;
      var s1 :- Insert(s, Row(Adjustment, Completed, if amount < 0 then Some(w) else None,
                              if amount >= 0 then Some(w) else None, Abs(amount), Client(key)));
      Post(s1, tx, Against(Own(s1, w), amount, LedgerAdjustments))
  }

  // ---- Requests that only open a PENDING row ----

  function OpenDeposit(s: State, user: nat, w: WalletId, amount: int, expires: int, key: string): Result<State> {
    var wallet :- OwnedWallet(s, user, w);
    :- Check(!wallet.closed, WalletClosed);
    :- Check(wallet.typ.depositable, NotSupported);
    Insert(s, Row(Deposit, Awaiting, None, Some(w), amount, Client(key)).(expires := Some(expires)))
  }

  function OpenPurchase(s: State, user: nat, from: WalletId, to: WalletId, amount: int, expires: int, key: string)
    : Result<State>
  {
    var source :- OwnedWallet(s, user, from);
    :- Check(!source.closed, WalletClosed);
    :- Check(!source.blocked, WalletBlocked);
    :- Check(source.typ.allowPurchaseOut, NotSupported);
    var target :- WalletAt(s, to);
    :- Check(target.user != user, InvalidRequest);
    :- Check(target.typ.allowPurchaseIn && !target.closed && target.typ.currency == source.typ.currency, NotFound);
    Insert(s, Row(Purchase, Awaiting, Some(from), Some(to), amount, Client(key)).(expires := Some(expires)))
  }

  /** A merchant's charge: no customer wallet yet, possibly a settlement split of its own. */
  function OpenCharge(s: State, to: WalletId, amount: int, splits: Option<seq<SplitDto>>, expires: int, key: string)
    : Result<State>
  {
    if splits.Some? && !ValidChargeOverrides(splits.value, amount) then Fail(InvalidRequest)
    else
      var target :- WalletAt(s, to);
      :- Check(target.typ.allowPurchaseIn && !target.closed, NotFound);
      var tx := |s.txs|;
      var s1 :- Insert(s, Row(Purchase, Awaiting, None, Some(to), amount, Client(key)).(expires := Some(expires)));
      Ok(if splits.None? then s1 else s1.(overrides := s1.overrides[tx := StoredRows(splits.value)]))
  }

  /** The identified customer's wallet fills a still-empty PENDING charge, and nothing else. */
  function AttachWallet(s: State, id: TxId, user: nat, w: WalletId): Result<State> {
    if id >= |s.txs| || s.txs[id].kind != Purchase || s.txs[id].status != Awaiting
        || s.txs[id].to.None? then Fail(NotFound)
    else
      var wallet :- OwnedWallet(s, user, w);
      var target :- WalletAt(s, s.txs[id].to.value);
      :- Check(!wallet.closed && !target.closed && wallet.typ.allowPurchaseOut
               && wallet.typ.currency == target.typ.currency, InvalidRequest);
      :- Check(!wallet.blocked, WalletBlocked);
      Ok(if s.txs[id].from.Some? then s else s.(txs := s.txs[id := s.txs[id].(from := Some(w))]))
  }

  function OpenRepayment(s: State, user: nat, i: nat, expires: int, key: string): Result<State> {
    if i >= |s.installments| then Fail(NotFound)
    else
      var installment := s.installments[i];
      var wallet :- OwnedWallet(s, user, installment.wallet);
      :- Check(installment.status != Paid, Conflict);
      :- Check(wallet.repository.Some?, InvalidRequest);
      var repository :- WalletAt(s, wallet.repository.value);
      :- Check(!repository.closed, WalletClosed);
      :- Check(repository.typ.depositable, NotSupported);
      var charge := installment.amount + if wallet.blocked then wallet.typ.terms.unblockFee else 0;
      Insert(s, Row(Deposit, Awaiting, None, wallet.repository, charge, Client(key))
                  .(expires := Some(expires), installment := Some(i)))
  }

  function OutstandingRows(installments: seq<Installment>, w: WalletId): seq<Installment> {
    if |installments| == 0 then []
    else
      var init, last := OutstandingRows(installments[..|installments| - 1], w), installments[|installments| - 1];
      if last.wallet == w && Unpaid(last) then init + [last] else init
  }

  /** The repository-backed wallet with money owed that the two collection routes start from. */
  function CollectionContext(s: State, w: WalletId, quit: bool): Result<Wallet> {
    var wallet :- WalletAt(s, w);
    :- Check(quit || wallet.blocked, InvalidRequest);
    :- Check(wallet.repository.Some?, InvalidRequest);
    var _ :- WalletAt(s, wallet.repository.value);
    :- Check(|OutstandingRows(s.installments, w)| > 0, NothingOutstanding);
    Ok(wallet)
  }

  function OpenCollection(s: State, w: WalletId, quit: bool, expires: int, key: string): Result<State> {
    var wallet :- CollectionContext(s, w, quit);
    var owed := Sum(OutstandingRows(s.installments, w), AmountOf()) + if quit then 0 else wallet.typ.terms.unblockFee;
    Insert(s, Row(Deposit, Awaiting, None, wallet.repository, owed, Client(key))
                .(expires := Some(expires), settles := Some(w)))
  }

  function Attempts(txs: seq<Tx>, purchase: TxId): nat {
    if |txs| == 0 then 0
    else Attempts(txs[..|txs| - 1], purchase) + if txs[|txs| - 1].completes == Some(purchase) then 1 else 0
  }

  /** Asks for the shortfall of a PENDING purchase, unless that is being asked for already. */
  function OpenTopUp(s: State, purchase: TxId, shortfall: int, expires: int): Result<State> {
    if exists i :: 0 <= i < |s.txs| && s.txs[i].completes == Some(purchase) && s.txs[i].status == Awaiting then Ok(s)
    else
      :- Check(purchase < |s.txs| && s.txs[purchase].status == Awaiting && s.txs[purchase].from.Some?, NotFound);
      var s1 := s.(txs := s.txs[purchase := s.txs[purchase].(expires := Some(expires))]);
      Insert(s1, Row(Deposit, Awaiting, None, None, shortfall, SupportTopUp(purchase, Attempts(s.txs, purchase)))
                   .(expires := Some(expires), completes := Some(purchase)))
  }

  /** The timeout sweep and the customer's own cancel: PENDING rows only, no balance to unwind. */
  function ExpirePending(s: State, id: TxId): Result<State> {
    if id >= |s.txs| || s.txs[id].status != Awaiting then Fail(NotFound)
    else Ok(SetStatus(s, id, Reversed))
  }

  // ---- Completing a purchase ----

  datatype Funding = Funding(wallet: WalletId, amount: int)

  function PlanRows(w: WalletId, purchase: TxId, schedule: seq<ScheduledInstallment>): seq<Installment> {
    seq(|schedule|, i requires 0 <= i < |schedule| =>
      var r := schedule[i];
      Installment(w, purchase, r.sequenceNumber, r.principal, r.fee, r.amount, DayNumber(r.due), DayNumber(r.deadline),
                  false, false, 0, Pending))
  }

  predicate HasPlan(installments: seq<Installment>, purchase: TxId) {
    exists i :: 0 <= i < |installments| && installments[i].purchase == purchase
  }

  /** Idempotent per purchase: a plan already on record is left as it is. */
  function CreatePlan(s: State, w: WalletId, purchase: TxId, drawn: int, today: Date): State
    requires w < |s.wallets| && OnCalendar(today)
  {
    if HasPlan(s.installments, purchase) then s
    else s.(installments := s.installments + PlanRows(w, purchase, Schedule(drawn, s.wallets[w].typ.terms, today)))
  }

  function FundFromSupport(s: State, p: TxId, from: WalletId, support: Funding): (r: Result<State>)
    ensures r.Ok? ==> |r.value.txs| == |s.txs| + 1 && r.value.wallets == s.wallets && r.value.journal == s.journal
  {
    if Balance(s.journal, support.wallet) - support.amount < 0 then Fail(InsufficientBalance)
    else Insert(s, Row(Transfer, Completed, Some(support.wallet), Some(from), support.amount, SupportFund(p)))
  }

  /** Draws `amount` on the credit line of `from`: ceiling down, receivable up, plan created. */
  function Draw(s: State, p: TxId, from: WalletId, amount: int, today: Date): (r: Result<State>)
    requires from < |s.wallets| && s.wallets[from].repository.Some? && OnCalendar(today)
    ensures r.Ok? ==> |r.value.txs| == |s.txs| + 2 && |r.value.wallets| == |s.wallets|
                      && s.wallets[from].repository.value < |s.wallets|
  {
    var available := s.wallets[from].virtualAmount;
    var r := s.wallets[from].repository.value;
    :- Check(amount <= available, CeilingExceeded);
    :- Check(r < |s.wallets|, NotFound);
    :- Check(Balance(s.journal, r) - amount >= 0, RepositoryShort);
    var s1 := SetVirtual(s, from, available - amount);
    var s2 :- PostReceivable(s1, p, from, amount);
    var s3 :- Insert(s2, Row(Transfer, Completed, Some(r), Some(from), amount, CreditFund(p)));
    var s4 :- Insert(s3, Row(Virtual, Completed, Some(from), None, amount, CreditDraw(p)));
    Ok(CreatePlan(s4, from, p, amount, today))
  }

  predicate DrawsOnLine(s: State, from: WalletId, remainder: int)
    requires from < |s.wallets|
  {
    remainder > 0 && s.wallets[from].typ.code == CreditLine && s.wallets[from].repository.Some?
  }

  function FundingLegs(s: State, from: WalletId, amount: int, support: Option<Funding>): seq<Movement>
    requires from < |s.wallets|
    requires support.Some? ==> support.value.wallet < |s.wallets|
    requires s.wallets[from].repository.Some? ==> s.wallets[from].repository.value < |s.wallets|
  {
    var supported := if support.Some? then support.value.amount else 0;
    var remainder := amount - supported;
    var supportLeg := if supported > 0 then [Movement(Own(s, support.value.wallet), supported)] else [];
    var lineLeg := if DrawsOnLine(s, from, remainder)
                   then [Movement(Own(s, s.wallets[from].repository.value), remainder)] else [];
    if supportLeg + lineLeg == [] then [Movement(Own(s, from), amount)] else supportLeg + lineLeg
  }

  /** Records the slices of a purchase that a top-up or the credit line pays for. */
  function FundPurchase(s: State, p: TxId, support: Option<Funding>, today: Date): (r: Result<State>)
    requires p < |s.txs| && s.txs[p].from.Some? && s.txs[p].from.value < |s.wallets| && OnCalendar(today)
    ensures r.Ok? ==> |s.txs| <= |r.value.txs|
  {
    var from := s.txs[p].from.value;
    var remainder := s.txs[p].amount - if support.Some? then support.value.amount else 0;
    var s1 :- if support.Some? && support.value.amount > 0 then FundFromSupport(s, p, from, support.value) else Ok(s);
    if DrawsOnLine(s, from, remainder) then Draw(s1, p, from, remainder, today) else Ok(s1)
  }

  /** Completes a purchase with money from a support top-up, the backing repository, or the wallet itself. */
  function Settle(s: State, p: TxId, support: Option<Funding>, today: Date): Result<State>
    requires p < |s.txs| && s.txs[p].from.Some? && s.txs[p].to.Some?
    requires s.txs[p].from.value < |s.wallets| && s.txs[p].to.value < |s.wallets|
    requires support.Some? ==> support.value.wallet < |s.wallets|
    requires OnCalendar(today)
  {
    var from, to, amount := s.txs[p].from.value, s.txs[p].to.value, s.txs[p].amount;
    var s2 :- FundPurchase(s, p, support, today);
    :- Check(s.wallets[from].repository.Some? ==> s.wallets[from].repository.value < |s.wallets|, NotFound);
    var supported := if support.Some? && support.value.amount > 0 then support.value.amount else 0;
    var remainder := amount - if support.Some? then support.value.amount else 0;
    var externallyFunded := supported + if DrawsOnLine(s, from, remainder) then remainder else 0;
    :- Check(Balance(s2.journal, from) + externallyFunded - amount >= 0, InsufficientBalance);
    var s3 :- Post(s2, p, MultiLegs(FundingLegs(s, from, amount, support), [Movement(Own(s, to), amount)]));
    Ok(SetStatus(s3, p, Completed))
  }

  function FindSupport(wallets: seq<Wallet>, user: nat, currency: CurrencyId): (r: Option<WalletId>)
    ensures r.Some? ==> r.value < |wallets| && wallets[r.value].typ.code == Support && !wallets[r.value].closed
                        && wallets[r.value].user == user && wallets[r.value].typ.currency == currency
  {
    if |wallets| == 0 then None
    else
      var init := FindSupport(wallets[..|wallets| - 1], user, currency);
      var last := wallets[|wallets| - 1];
      if init.Some? then init
      else if last.typ.code == Support && !last.closed && last.user == user && last.typ.currency == currency
      then Some(|wallets| - 1) else None
  }

  function SupportWalletFor(s: State, user: nat, currency: CurrencyId): (r: Result<(State, WalletId)>)
    ensures r.Ok? ==> r.value.1 < |r.value.0.wallets| && |s.wallets| <= |r.value.0.wallets| && r.value.0.txs == s.txs
    ensures r.Ok? ==> r.value.0.wallets[r.value.1].typ.code == Support
  {
    var found := FindSupport(s.wallets, user, currency);
    if found.Some? then Ok((s, found.value))
    else
      :- Check(currency in s.supportTypes && s.supportTypes[currency].code == Support
               && s.supportTypes[currency].currency == currency, NotSupported);
      Ok((s.(wallets := s.wallets + [Wallet(s.supportTypes[currency], user, None, 0, false, false, None)]),
          |s.wallets|))
  }

  /** A verified top-up lands on the owner's support wallet, once. */
  function LandTopUp(s: State, t: TxId, user: nat, currency: CurrencyId): (r: Result<(State, WalletId)>)
    requires t < |s.txs|
    ensures r.Ok? ==> r.value.1 < |r.value.0.wallets| && |s.wallets| <= |r.value.0.wallets|
    ensures r.Ok? ==> |r.value.0.txs| == |s.txs| && forall q :: 0 <= q < |s.txs| && q != t ==>
        r.value.0.txs[q] == s.txs[q]
  {
    var found :- SupportWalletFor(s, user, currency);
    var (s1, support) := found;
    if s.txs[t].status == Completed then Ok(found)
    else
      var s2 :- Post(s1.(txs := s1.txs[t := s1.txs[t].(to := Some(support), status := Completed)]), t,
                     Against(Own(s1, support), s.txs[t].amount, BankCash));
      Ok((s2, support))
  }

  /** The top-up and, with it and the credit line, the purchase it was asked for. */
  function CompleteTopUp(s: State, t: TxId, today: Date): Result<State>
    requires t < |s.txs| && s.txs[t].completes.Some? && OnCalendar(today)
  {
    var p := s.txs[t].completes.value;
    :- Check(p < |s.txs| && p != t && s.txs[p].from.Some? && s.txs[p].to.Some?, NotFound);
    var from :- WalletAt(s, s.txs[p].from.value);
    var to :- WalletAt(s, s.txs[p].to.value);
    var landed :- LandTopUp(s, t, from.user, from.typ.currency);
    var (s1, support) := landed;
    if s.txs[p].status == Completed then Ok(s1)
    else
      :- Check(!from.closed && !to.closed, WalletClosed);
      Settle(s1, p, Some(Funding(support, s.txs[t].amount)), today)
  }

  // ---- Repayments ----

  datatype Part = Part(amount: int, target: Option<WalletId>, slice: Slice)

  datatype SplitPrefix = OfRepayment(tx: TxId) | OfOverdue(key: string) | OfQuit(key: string)

  function Suffix(slice: Slice): string {
    match slice
    case FeeSlice => "-fee"
    case PenaltySlice => "-penalty"
    case UnblockSlice => "-unblock-fee"
  }

  /** A write-off's slice is named by the client's key and a suffix, so that different write-offs can have
      slices of one name. */
  function SliceKey(prefix: SplitPrefix, slice: Slice): Key {
    match prefix
    case OfRepayment(tx) => RepaymentSlice(tx, slice)
    case OfOverdue(key) => OverdueAbsorb(key + Suffix(slice))
    case OfQuit(key) => QuitAbsorb(key + Suffix(slice))
  }

  function Parts(terms: Terms, fee: int, penalty: int, unblockFee: int): seq<Part> {
    [Part(fee, terms.feeRepository, FeeSlice), Part(penalty, terms.penaltyRepository, PenaltySlice),
     Part(unblockFee, terms.unblockRepository, UnblockSlice)]
  }

  datatype Routed = Routed(state: State, unrouted: int, legs: seq<Movement>)

  /** One slice: to its sub-repository as a row of its own, or left with the main repository. */
  function RouteSlice(r: Routed, main: WalletId, part: Part, transfer: bool, prefix: SplitPrefix): (res: Result<Routed>)
    ensures res.Ok? ==> |r.state.txs| <= |res.value.state.txs|
  {
    if part.amount <= 0 then Ok(r)
    else if part.target.None? then Ok(r.(unrouted := r.unrouted + part.amount))
    else
      var target :- WalletAt(r.state, part.target.value);
      if target.closed then Ok(r.(unrouted := r.unrouted + part.amount))
      else
        var s1 :- Insert(r.state, Row(if transfer then Transfer else Deposit, Completed,
                                      if transfer then Some(main) else None, part.target, part.amount,
                                      SliceKey(prefix, part.slice)));
        Ok(Routed(s1, r.unrouted, r.legs + [Movement(Own(r.state, part.target.value), part.amount)]))
  }

  function Route(s: State, main: WalletId, parts: seq<Part>, transfer: bool, prefix: SplitPrefix): (res: Result<Routed>)
    ensures res.Ok? ==> |s.txs| <= |res.value.state.txs|
  {
    if |parts| == 0 then Ok(Routed(s, 0, []))
    else
      var r :- Route(s, main, parts[..|parts| - 1], transfer, prefix);
      RouteSlice(r, main, parts[|parts| - 1], transfer, prefix)
  }

  predicate IsRepayment(t: Tx) {
    t.installment.Some? || t.settles.Some?
  }

  /** The rows a repayment pays off, and the credit wallet that owes them. */
  function RepaidRows(s: State, t: Tx): (seq<Installment>, WalletId)
    requires IsRepayment(t) && (t.installment.Some? ==> t.installment.value < |s.installments|)
  {
    if t.installment.Some? then
      var i := s.installments[t.installment.value];
      ([i], i.wallet)
    else (OutstandingRows(s.installments, t.settles.value), t.settles.value)
  }

  datatype Charge = Charge(principal: int, parts: seq<Part>)

  /** What a charge is made of; whatever exceeds the rows it pays off is the unblock fee. */
  function ChargeOf(s: State, t: TxId): Result<Charge>
    requires t < |s.txs| && IsRepayment(s.txs[t])
    requires s.txs[t].installment.Some? ==> s.txs[t].installment.value < |s.installments|
  {
    var (rows, w) := RepaidRows(s, s.txs[t]);
    var split := RepaymentSplit(rows);
    var unblockFee := s.txs[t].amount - split.principal - split.fee - split.penalty;
    var wallet :- WalletAt(s, w);
    Ok(Charge(split.principal, Parts(wallet.typ.terms, split.fee, split.penalty, unblockFee)))
  }

  /** Lands a verified charge: principal on the repository, the fee slices where they belong; the
      row's amount shrinks to what reached the repository. */
  function CreditRepayment(s: State, t: TxId, main: WalletId): (r: Result<State>)
    requires t < |s.txs| && main < |s.wallets| && IsRepayment(s.txs[t])
    ensures r.Ok? ==> |s.txs| <= |r.value.txs|
  {
    var tx := s.txs[t];
    if tx.installment.Some? && tx.installment.value >= |s.installments| then Ok(s)
    else
      var charge :- ChargeOf(s, t);
      var routed :- Route(s, main, charge.parts, false, OfRepayment(t));
      var toRepository := charge.principal + routed.unrouted;
      var s1 :- Post(routed.state, t, CashInLegs(BankCash, s.wallets[main].typ.currency, tx.amount,
                                                 [Movement(Own(s, main), toRepository)] + routed.legs));
      Ok(s1.(txs := s1.txs[t := s1.txs[t].(amount := toRepository)]))
  }

  /** Marks one row PAID: its principal comes off the receivable and back onto the ceiling. */
  function SettleOne(s: State, i: nat, tx: TxId): Result<State>
    requires i < |s.installments|
  {
    var row := s.installments[i];
    var s1 := s.(installments := s.installments[i := row.(status := Paid)]);
    if row.wallet >= |s.wallets| then Ok(s1)
    else
      var s2 :- PostReceivable(s1, tx, row.wallet, -row.principal);
      var s3 := SetVirtual(s2, row.wallet, s2.wallets[row.wallet].virtualAmount + row.principal);
      Insert(s3, Row(Virtual, Completed, None, Some(row.wallet), row.principal, InstallmentRestore(i)))
  }

  function Unblock(s: State, w: WalletId): State {
    if w < |s.wallets| then s.(wallets := s.wallets[w := s.wallets[w].(blocked := false)]) else s
  }

  /** Settles the outstanding rows of `w` among the first `n`. */
  function SettleOutstanding(s: State, w: WalletId, n: nat, tx: TxId): Result<State>
    requires n <= |s.installments|
  {
    if n == 0 then Ok(s)
    else
      var s1 :- SettleOutstanding(s, w, n - 1, tx);
      if n <= |s1.installments| && s1.installments[n - 1].wallet == w && Unpaid(s1.installments[n - 1])
      then SettleOne(s1, n - 1, tx) else Ok(s1)
  }

  function MarkPaid(s: State, i: nat, tx: TxId): Result<State> {
    if i >= |s.installments| then Ok(s)
    else
      var s1 :- SettleOne(s, i, tx);
      Ok(Unblock(s1, s.installments[i].wallet))
  }

  function MarkAllPaid(s: State, w: WalletId, tx: TxId): Result<State> {
    var s1 :- SettleOutstanding(s, w, |s.installments|, tx);
    Ok(Unblock(s1, w))
  }

  /** The repayment row COMPLETED; a zero amount never passes the table's check. */
  function LandRepayment(s: State, t: TxId, main: WalletId): Result<State>
    requires t < |s.txs| && main < |s.wallets| && IsRepayment(s.txs[t])
  {
    var s1 :- CreditRepayment(s, t, main);
    :- Check(s1.txs[t].amount > 0, AmountNotPositive);
    Ok(SetStatus(s1, t, Completed))
  }

  function SettleRepaid(s: State, tx: Tx, t: TxId): Result<State> {
    var s1 :- if tx.installment.Some? then MarkPaid(s, tx.installment.value, t) else Ok(s);
    if tx.settles.Some? then MarkAllPaid(s1, tx.settles.value, t) else Ok(s1)
  }

  /** A verified row funded by the gateway: a plain deposit or a repayment. */
  function ReceiveMoney(s: State, t: TxId): Result<State>
    requires t < |s.txs|
  {
    var tx := s.txs[t];
    :- Check(tx.to.Some?, NotFound);
    var main :- WalletAt(s, tx.to.value);
    :- Check(!main.closed, WalletClosed);
    if IsRepayment(tx) then
      var s1 :- LandRepayment(s, t, tx.to.value);
      SettleRepaid(s1, tx, t)
    else
      var s1 :- PayIn(s, t, tx.to.value, tx.amount);
      Ok(SetStatus(s1, t, Completed))
  }

  /** The callback's second step: asks the gateway once, and only then moves money. `paid` is the
      gateway's answer. */
  function Verify(s: State, t: TxId, paid: bool, now: int, today: Date): Result<State>
    requires OnCalendar(today)
  {
    if t >= |s.txs| || (s.txs[t].kind != Purchase && s.txs[t].kind != Deposit) then Fail(NotFound)
    else
      var tx := s.txs[t];
      var moneyIn := tx.kind == Deposit || tx.installment.Some? || tx.completes.Some?;
      :- Check(tx.from.Some? || moneyIn, InvalidRequest);
      if tx.status == Completed then
        if tx.completes.Some? then CompleteTopUp(s, t, today) else Ok(s)
      else
        :- Check(tx.status != Reversed, InvalidRequest);
        :- Check(tx.expires.Some? ==> tx.expires.value >= now, Gone);
        if !paid then Ok(s)
        else if tx.completes.Some? then CompleteTopUp(s, t, today)
        else if moneyIn then ReceiveMoney(s, t)
        else
          :- Check(tx.to.Some?, NotFound);
          var from :- WalletAt(s, tx.from.value);
          var to :- WalletAt(s, tx.to.value);
          :- Check(!from.closed && !to.closed, WalletClosed);
          Settle(s, t, None, today)
  }

  function PostAbsorbed(s: State, tx: TxId, r: WalletId, total: int, legs: seq<Movement>): Result<State> {
    if |legs| > 0 && r < |s.wallets| then Post(s, tx, MultiLegs([Movement(Own(s, r), total)], legs)) else Ok(s)
  }

  /** The repository gives up an outstanding balance: only the routed fee slices move real money. */
  function Absorb(s: State, w: WalletId, quit: bool, key: string): Result<(State, TxId)> {
    var wallet :- CollectionContext(s, w, quit);
    var r := wallet.repository.value;
    var split := RepaymentSplit(OutstandingRows(s.installments, w));
    var unblockFee := if quit then 0 else wallet.typ.terms.unblockFee;
    var routed :- Route(s, r, Parts(wallet.typ.terms, split.fee, split.penalty, unblockFee), true,
                        if quit then OfQuit(key) else OfOverdue(key));
    var total := split.fee + split.penalty + unblockFee;
    var routedTotal := total - routed.unrouted;
    :- Check(Balance(s.journal, r) - routedTotal >= 0, RepositoryShort);
    var tx := |routed.state.txs|;
    var s1 :- Insert(routed.state, Row(Adjustment, Completed, Some(r), None, total, Client(key)));
    var s2 :- PostAbsorbed(s1, tx, r, routedTotal, routed.legs);
    Ok((s2, tx))
  }

  /** ... and the rows it owed are settled. */
  function WriteOff(s: State, w: WalletId, quit: bool, key: string): Result<State> {
    var absorbed :- Absorb(s, w, quit, key);
    MarkAllPaid(absorbed.0, w, absorbed.1)
  }

  // ---- The credit line's beginning and end ----

  /** A slice of the repository's unallocated pool becomes a new credit wallet's ceiling. */
  function GrantCredit(s: State, user: nat, r: WalletId, person: nat, typ: WalletType, amount: int, key: string)
    : Result<State>
  {
    var repository :- OwnedWallet(s, user, r);
    :- Check(repository.typ.code == Repository, InvalidRequest);
    :- Check(!repository.closed, WalletClosed);
    :- Check(typ.code == CreditLine && typ.currency == repository.typ.currency, InvalidRequest);
    :- Check(amount <= repository.virtualAmount, PoolExceeded);
    var w := |s.wallets|;
    var s1 := SetVirtual(s, r, repository.virtualAmount - amount);
    Insert(s1.(wallets := s1.wallets + [Wallet(typ, person, Some(r), amount, false, false, None)]),
           Row(Virtual, Completed, Some(r), Some(w), amount, Client(key)))
  }

  function CloseAndReclaim(s: State, w: WalletId, key: string): Result<State> {
    var wallet :- WalletAt(s, w);
    :- Check(wallet.typ.code == CreditLine, InvalidRequest);
    :- Check(!wallet.closed, WalletClosed);
    :- Check(wallet.repository.Some?, InvalidRequest);
    :- Check(|OutstandingRows(s.installments, w)| == 0, StillOwing);
    :- Check(Balance(s.journal, w) == 0, StillOwing);
    var reclaimed, r := wallet.virtualAmount, wallet.repository.value;
    var s1 :- if reclaimed <= 0 then Ok(s)
              else
                var repository :- WalletAt(s, r);
                Insert(SetVirtual(SetVirtual(s, r, repository.virtualAmount + reclaimed), w, 0),
                       Row(Virtual, Completed, Some(w), Some(r), reclaimed, Client(key)));
    Ok(s1.(wallets := s1.wallets[w := s1.wallets[w].(closed := true)]))
  }

  function CloseWallet(s: State, w: WalletId): Result<State> {
    var wallet :- WalletAt(s, w);
    :- Check(!wallet.closed, WalletClosed);
    :- Check(Balance(s.journal, w) == 0, StillOwing);
    Ok(s.(wallets := s.wallets[w := wallet.(closed := true)]))
  }

  function ReopenWallet(s: State, w: WalletId): Result<State> {
    var wallet :- WalletAt(s, w);
    :- Check(wallet.closed, InvalidRequest);
    Ok(s.(wallets := s.wallets[w := wallet.(closed := false)]))
  }

  // ---- Refunds ----

  function PrincipalUnder(purchase: TxId): Installment -> int {
    (i: Installment) => if i.purchase == purchase then i.principal else 0
  }

  function PaidUnder(purchase: TxId): Installment -> int {
    (i: Installment) => if i.purchase == purchase && i.status == Paid then i.principal else 0
  }

  function UnpaidOn(w: WalletId): Installment -> int {
    (i: Installment) => if i.wallet == w && Unpaid(i) then i.principal else 0
  }

  function CancelPlan(installments: seq<Installment>, purchase: TxId): (r: seq<Installment>)
    ensures |r| == |installments|
  {
    seq(|installments|, i requires 0 <= i < |installments| =>
      if installments[i].purchase == purchase && Unpaid(installments[i])
      then installments[i].(status := Canceled) else installments[i])
  }

  /** What a purchase drew on its credit line. */
  function Drawn(txs: seq<Tx>, p: TxId): int {
    var fund := FindKey(txs, CreditFund(p));
    if fund.Some? then txs[fund.value].amount else 0
  }

  /** The still-unpaid part of the draw; what was repaid belongs to the customer. */
  function UnpaidDraw(s: State, p: TxId): int {
    var drawn, paid := Drawn(s.txs, p), Sum(s.installments, PaidUnder(p));
    drawn - if paid > drawn then drawn else paid
  }

  function OwnsEitherSide(s: State, user: nat, t: Tx): bool {
    || (t.from.Some? && t.from.value < |s.wallets| && s.wallets[t.from.value].user == user)
    || (t.to.Some? && t.to.value < |s.wallets| && s.wallets[t.to.value].user == user)
  }

  /** The repository-funded slice goes back: ceiling up, its rows recorded. */
  function ReturnDraw(s: State, p: TxId, customer: WalletId, r: WalletId, amount: int): (res: Result<State>)
    requires customer < |s.wallets|
    ensures res.Ok? ==> |res.value.wallets| == |s.wallets| && res.value.installments == s.installments
    ensures res.Ok? ==> |s.txs| <= |res.value.txs|
  {
    var s1 := SetVirtual(s, customer, s.wallets[customer].virtualAmount + amount);
    var s2 :- Insert(s1, Row(Transfer, Completed, Some(customer), Some(r), amount, CreditFundReverse(p)));
    Insert(s2, Row(Virtual, Completed, None, Some(customer), amount, CreditDrawReverse(p)))
  }

  /** The credit-line half of a refund: the unpaid draw back onto the ceiling, the plan canceled, the
      debt gone with it. */
  function UnwindCredit(s: State, p: TxId, customer: WalletId, r: WalletId, unpaid: int, givesBack: bool)
    : (res: Result<State>)
    requires customer < |s.wallets|
    ensures res.Ok? ==> |s.txs| <= |res.value.txs|
  {
    var s1 :- if givesBack then ReturnDraw(s, p, customer, r, unpaid) else Ok(s);
    if !HasPlan(s1.installments, p) then Ok(s1)
    else PostReceivable(s1.(installments := CancelPlan(s1.installments, p)), p, customer,
                        if unpaid > 0 then -unpaid else 0)
  }

  /** Where the drawn money came from: the row that recorded the draw knows. */
  function FundingRepository(s: State, p: TxId, customer: WalletId): WalletId {
    var fund := FindKey(s.txs, CreditFund(p));
    if fund.Some? && s.txs[fund.value].from.Some? then s.txs[fund.value].from.value else customer
  }

  const REVERSAL := ":reversal"

  function RefundRow(merchant: WalletId, customer: WalletId, amount: int, p: TxId, key: string): Tx {
    Row(Purchase, Reversed, Some(merchant), Some(customer), amount, Client(key + REVERSAL)).(related := Some(p))
  }

  function RefundCompleted(s: State, p: TxId, key: string): Result<State>
    requires p < |s.txs|
  {
    var original := s.txs[p];
    :- Check(original.from.Some? && original.to.Some?, NotFound);
    var customer, merchant := original.from.value, original.to.value;
    var _ :- WalletAt(s, customer);
    var _ :- WalletAt(s, merchant);
    var unpaid := UnpaidDraw(s, p);
    var givesBack := FindKey(s.txs, CreditFund(p)).Some? && unpaid > 0;
    :- Check(Balance(s.journal, merchant) - original.amount >= 0, InsufficientBalance);
    var r := FundingRepository(s, p, customer);
    var _ :- WalletAt(s, r);
    var s1 :- UnwindCredit(s, p, customer, r, unpaid, givesBack);
    var s2 := SetStatus(s1, p, Reversed);
    var tx := |s2.txs|;
    var s3 :- Insert(s2, RefundRow(merchant, customer, original.amount, p, key));
    Post(s3, tx, MultiLegs([Movement(Own(s, merchant), original.amount)],
                           [Movement(Own(s, customer), original.amount - unpaid)]
                           + if givesBack then [Movement(Own(s, r), unpaid)] else []))
  }

  function Refund(s: State, user: nat, p: TxId, key: string): Result<State> {
    if p >= |s.txs| || s.txs[p].kind != Purchase then Fail(NotFound)
    else
      :- Check(OwnsEitherSide(s, user, s.txs[p]), Forbidden);
      :- Check(s.txs[p].status != Reversed, Conflict);
      if s.txs[p].status == Awaiting then Ok(SetStatus(s, p, Reversed)) else RefundCompleted(s, p, key)
  }

  // ---- Merchant payouts ----

  datatype Payer = Payer(wallet: WalletId, rail: Option<nat>, rate: Option<Method>, feeRepository: Option<WalletId>,
                         minute: nat, failed: set<TxId>)

  function PayOutFee(s: State, payer: Payer, fee: int, key: Key, purchase: Option<TxId>): (r: Result<State>)
    requires payer.wallet < |s.wallets|
    requires payer.feeRepository.Some? && payer.feeRepository.value < |s.wallets|
    ensures r.Ok? ==> r.value.wallets == s.wallets && s.txs <= r.value.txs
  {
    var w, target := payer.wallet, payer.feeRepository.value;
    var s1 :- Insert(s, Row(Transfer, Completed, Some(w), Some(target), fee, PayoutFee(key)).(related := purchase));
    Post(s1, |s.txs|, WalletToWallet(Own(s, w), Own(s, target), fee))
  }

  function PayNet(s: State, payer: Payer, net: int, key: Key, purchase: Option<TxId>): (r: Result<State>)
    requires payer.wallet < |s.wallets|
    ensures r.Ok? ==> r.value.wallets == s.wallets && s.txs <= r.value.txs
  {
    var tx := |s.txs|;
    var cleared := payer.rail.None? || tx !in payer.failed;
    var s1 :- Insert(s, Row(Withdraw, Completed, Some(payer.wallet), None, net, key)
                          .(related := purchase, cleared := cleared));
    Post(s1, tx, Against(Own(s, payer.wallet), -net, CashAccount(cleared)))
  }

  /** One payout: the fee to the fee repository, the rest out over the rail. */
  function PayOut(s: State, payer: Payer, amount: int, key: Key, purchase: Option<TxId>): (r: Result<State>)
    requires payer.wallet < |s.wallets|
    requires payer.feeRepository.Some? ==> payer.feeRepository.value < |s.wallets|
    ensures r.Ok? ==> r.value.wallets == s.wallets && s.txs <= r.value.txs
  {
    var fee := if payer.feeRepository.Some? then WithdrawalFee(payer.rate, amount) else 0;
    var s1 :- if fee <= 0 then Ok(s) else PayOutFee(s, payer, fee, key, purchase);
    if amount - fee <= 0 then Ok(s1) else PayNet(s1, payer, amount - fee, key, purchase)
  }

  predicate Unsettled(t: Tx, w: WalletId) {
    t.kind == Purchase && t.status == Completed && t.to == Some(w) && !t.settled
  }

  /** The slices one purchase is paid out in. */
  function SlicesOf(s: State, p: TxId, w: WalletId): seq<int>
    requires p < |s.txs|
  {
    var rows := if p in s.overrides then s.overrides[p] else if w in s.defaults then s.defaults[w] else [];
    if |rows| > 0 then Amounts(rows, s.txs[p].amount) else [s.txs[p].amount]
  }

  function PaySlices(s: State, payer: Payer, p: TxId, slices: seq<int>): (r: Result<State>)
    requires payer.wallet < |s.wallets|
    requires payer.feeRepository.Some? ==> payer.feeRepository.value < |s.wallets|
    ensures r.Ok? ==> r.value.wallets == s.wallets && s.txs <= r.value.txs
  {
    if |slices| == 0 then Ok(s)
    else
      var n := |slices| - 1;
      var s1 :- PaySlices(s, payer, p, slices[..n]);
      PayOut(s1, payer, slices[n], SweepSlice(payer.wallet, p, n, payer.minute), Some(p))
  }

  /** A wallet edit replaces the default split as a whole. */
  function ReplaceDefaults(s: State, w: WalletId, percents: seq<int>): Result<State> {
    if !ValidWalletDefaults(percents) then Fail(InvalidRequest)
    else
      var _ :- WalletAt(s, w);
      Ok(s.(defaults := s.defaults[w := DefaultRows(percents)]))
  }

  datatype Swept = Swept(state: State, remaining: int)

  /** Pays out the unsettled purchases among the first `n` rows, as far as the balance goes. */
  function SweepPurchases(s: State, payer: Payer, n: nat, balance: int): (r: Result<Swept>)
    requires payer.wallet < |s.wallets| && n <= |s.txs|
    requires payer.feeRepository.Some? ==> payer.feeRepository.value < |s.wallets|
    ensures r.Ok? ==> r.value.state.wallets == s.wallets && |s.txs| <= |r.value.state.txs|
  {
    if n == 0 then Ok(Swept(s, balance))
    else
      var done :- SweepPurchases(s, payer, n - 1, balance);
      var p := n - 1;
      if !Unsettled(s.txs[p], payer.wallet) then Ok(done)
      else
        var slices := SlicesOf(s, p, payer.wallet);
        var total := Sum(slices, Identity());
        if total > done.remaining then Ok(done)
        else
          var s1 :- PaySlices(done.state, payer, p, slices);
          Ok(Swept(s1.(txs := s1.txs[p := s1.txs[p].(settled := true)]), done.remaining - total))
  }

  predicate SplitMode(s: State, w: WalletId) {
    || (w in s.defaults && |s.defaults[w]| > 0)
    || exists p :: 0 <= p < |s.txs| && Unsettled(s.txs[p], w) && p in s.overrides
  }

  function PayerFor(s: State, w: WalletId, minute: nat, failed: set<TxId>): (r: Result<Payer>)
    requires w < |s.wallets|
    ensures r.Ok? ==> r.value.wallet == w && (r.value.feeRepository.Some? ==> r.value.feeRepository.value < |s.wallets|)
  {
    var wallet := s.wallets[w];
    var rate := FindMethod(wallet.typ.withdrawalMethods, wallet.rail);
    if rate.Some? && rate.value.feeRepository.Some? && HasAnyFee(rate.value) then
      var repository :- WalletAt(s, rate.value.feeRepository.value);
      Ok(Payer(w, wallet.rail, rate, if repository.closed then None else rate.value.feeRepository, minute, failed))
    else Ok(Payer(w, wallet.rail, rate, None, minute, failed))
  }

  /** The scheduler's sweep of one merchant wallet. `failed` are the payouts whose rail reports failure. */
  function SweepWallet(s: State, w: WalletId, minute: nat, failed: set<TxId>): Result<State> {
    var wallet :- WalletAt(s, w);
    :- Check(wallet.typ.supportsAutoWithdraw, NotSupported);
    var balance := Balance(s.journal, w);
    if balance <= 0 then Ok(s)
    else
      var payer :- PayerFor(s, w, minute, failed);
      if !SplitMode(s, w) then PayOut(s, payer, balance, Sweep(w, minute), None)
      else
        var swept :- SweepPurchases(s, payer, |s.txs|, balance);
        Ok(swept.state)
  }

  // ---- The daily sweeps over installments ----

  function TermsOf(s: State, w: WalletId): Option<Terms> {
    if w < |s.wallets| then Some(s.wallets[w].typ.terms) else None
  }

  function AccrueRow(s: State, i: Installment, today: int): Installment {
    var terms := TermsOf(s, i.wallet);
    if terms.None? then i else Accrue(i, terms.value.penaltyMilli, today)
  }

  /** Some unpaid installment of `w` is more days past its deadline than the type allows. */
  predicate TooLate(s: State, w: WalletId, today: int)
    requires w < |s.wallets|
  {
    var threshold := s.wallets[w].typ.terms.overdueDaysBeforeBlock;
    && threshold.Some?
    && (exists i :: 0 <= i < |s.installments| && s.installments[i].wallet == w && Unpaid(s.installments[i])
                    && s.installments[i].deadline < today && today - s.installments[i].deadline > threshold.value)
  }

  function ApplyPenalties(s: State, today: int): State {
    s.(installments :=
        seq(|s.installments|, i requires 0 <= i < |s.installments| => AccrueRow(s, s.installments[i], today)),
       wallets := seq(|s.wallets|, w requires 0 <= w < |s.wallets| =>
         if TooLate(s, w, today) then s.wallets[w].(blocked := true) else s.wallets[w]))
  }

  function DueRow(s: State, i: Installment, today: int): Installment {
    if i.status != Pending || today < i.due || i.dueChecked then i
    else if i.purchase < |s.txs| && s.txs[i.purchase].status == Reversed then i.(dueChecked := true, status := Canceled)
    else i.(dueChecked := true)
  }

  function CheckDue(s: State, today: int): State {
    s.(installments :=
        seq(|s.installments|, i requires 0 <= i < |s.installments| => DueRow(s, s.installments[i], today)))
  }

  // ---- Runs ----

  type Today = d: Date | OnCalendar(d) witness Date(0, 1)

  datatype Op =
    | OpWithdraw(user: nat, wallet: WalletId, amount: int, cleared: bool, key: string)
    | OpTransfer(user: nat, wallet: WalletId, target: WalletId, amount: int, key: string)
    | OpAdjust(wallet: WalletId, amount: int, key: string)
    | OpDeposit(user: nat, wallet: WalletId, amount: int, expires: int, key: string)
    | OpPurchase(user: nat, wallet: WalletId, target: WalletId, amount: int, expires: int, key: string)
    | OpCharge(target: WalletId, amount: int, splits: Option<seq<SplitDto>>, expires: int, key: string)
    | OpAttach(tx: TxId, user: nat, wallet: WalletId)
    | OpRepay(user: nat, installment: nat, expires: int, key: string)
    | OpCollect(wallet: WalletId, quit: bool, expires: int, key: string)
    | OpTopUp(purchase: TxId, shortfall: int, expires: int)
    | OpExpire(tx: TxId)
    | OpVerify(tx: TxId, paid: bool, now: int, today: Today)
    | OpWriteOff(wallet: WalletId, quit: bool, key: string)
    | OpGrant(user: nat, repository: WalletId, person: nat, typ: WalletType, amount: int, key: string)
    | OpReclaim(wallet: WalletId, key: string)
    | OpClose(wallet: WalletId)
    | OpReopen(wallet: WalletId)
    | OpRefund(user: nat, tx: TxId, key: string)
    | OpSweep(wallet: WalletId, minute: nat, failed: set<TxId>)
    | OpPenalties(day: int)
    | OpDueCheck(day: int)
    | OpDefaults(wallet: WalletId, percents: seq<int>)

  function Step(s: State, op: Op): Result<State> {
    match op
    case OpWithdraw(user, w, amount, cleared, key) => WithdrawFrom(s, user, w, amount, cleared, key)
    case OpTransfer(user, from, to, amount, key) => TransferTo(s, user, from, to, amount, key)
    case OpAdjust(w, amount, key) => Adjust(s, w, amount, key)
    case OpDeposit(user, w, amount, expires, key) => OpenDeposit(s, user, w, amount, expires, key)
    case OpPurchase(user, from, to, amount, expires, key) => OpenPurchase(s, user, from, to, amount, expires, key)
    case OpCharge(to, amount, splits, expires, key) => OpenCharge(s, to, amount, splits, expires, key)
    case OpAttach(tx, user, w) => AttachWallet(s, tx, user, w)
    case OpRepay(user, i, expires, key) => OpenRepayment(s, user, i, expires, key)
    case OpCollect(w, quit, expires, key) => OpenCollection(s, w, quit, expires, key)
    case OpTopUp(p, shortfall, expires) => OpenTopUp(s, p, shortfall, expires)
    case OpExpire(tx) => ExpirePending(s, tx)
    case OpVerify(tx, paid, now, today) => Verify(s, tx, paid, now, today)
    case OpWriteOff(w, quit, key) => WriteOff(s, w, quit, key)
    case OpGrant(user, r, person, typ, amount, key) => GrantCredit(s, user, r, person, typ, amount, key)
    case OpReclaim(w, key) => CloseAndReclaim(s, w, key)
    case OpClose(w) => CloseWallet(s, w)
    case OpReopen(w) => ReopenWallet(s, w)
    case OpRefund(user, tx, key) => Refund(s, user, tx, key)
    case OpSweep(w, minute, failed) => SweepWallet(s, w, minute, failed)
    case OpPenalties(day) => Ok(ApplyPenalties(s, day))
    case OpDueCheck(day) => Ok(CheckDue(s, day))
    case OpDefaults(w, percents) => ReplaceDefaults(s, w, percents)
  }

  /** A request that throws is rolled back as a whole. */
  function Next(s: State, op: Op): State {
    var r := Step(s, op);
    if r.Ok? then r.value else s
  }

  function Run(s: State, ops: seq<Op>): State {
    if |ops| == 0 then s else Next(Run(s, ops[..|ops| - 1]), ops[|ops| - 1])
  }
}
