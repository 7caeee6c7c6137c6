/** The in-house payment page keeps its payment intents in a database of its own. A purchase is paid in
    two phases: the customer confirms the intent there, then the wallet backend asks the page to verify
    it and, in its own transaction, moves the money. A rollback there does not undo the page's write, and
    the page itself reads an intent and saves it later, with nothing locked in between. */
module Gateway {
  import opened Common
  import opened Sums
  import opened Ledger
  import opened Bank
  import opened BankInvariant
  import opened MoneyMoves
  import opened Purchases
  import opened History
  import opened Elsewhere

  // ---- The payment page ----

  datatype IntentStatus = Initiated | Authorized | Verified | Canceled | Expired

  datatype Intent = Intent(status: IntentStatus, amount: int, expiresAt: int)

  /** An intent past its expiry counts as expired before anything is written. */
  function EffectiveStatus(i: Intent, now: int): IntentStatus {
    if i.status == Initiated && i.expiresAt < now then Expired else i.status
  }

  predicate Actionable(i: Intent, now: int) {
    EffectiveStatus(i, now) == Initiated
  }

  datatype Action = Confirming | Canceling | Verifying(expected: Option<int>)

  /** What a request makes of the intent it read, and whether it succeeds. */
  function Decide(i: Intent, action: Action, now: int): (Intent, bool) {
    match action
    case Confirming => if Actionable(i, now) then (i.(status := Authorized), true) else (i, false)
    case Canceling => if Actionable(i, now) then (i.(status := Canceled), true) else (i, false)
    case Verifying(expected) =>
      var status := EffectiveStatus(i, now);
      if status == Expired then (i.(status := Expired), false)
      else if status != Authorized || (expected.Some? && expected.value != i.amount) then (i, false)
      else (i.(status := Verified), true)
  }

  predicate Final(status: IntentStatus) {
    status == Verified || status == Canceled || status == Expired
  }

  class PaymentIntent {
    const amount: int
    const expiresAt: int
    var status: IntentStatus
    var authorizedAt: Option<int>
    var verifiedAt: Option<int>

    function Value(): Intent
      reads this
    {
      Intent(status, amount, expiresAt)
    }

    constructor (amount: int, expiresAt: int)
      ensures Value() == Intent(Initiated, amount, expiresAt)
    {
      this.amount, this.expiresAt := amount, expiresAt;
      status, authorizedAt, verifiedAt := Initiated, None, None;
    }

    method Confirm(now: int) returns (ok: bool)
      modifies this
      ensures (Value(), ok) == Decide(old(Value()), Confirming, now)
      ensures Final(old(status)) ==> !ok && Value() == old(Value())
      ensures authorizedAt == if ok then Some(now) else old(authorizedAt)
    {
      ok := Actionable(Value(), now);
      if ok {
        status := Authorized;
        authorizedAt := Some(now);
      }
    }

    method Cancel(now: int) returns (ok: bool)
      modifies this
      ensures (Value(), ok) == Decide(old(Value()), Canceling, now)
      ensures Final(old(status)) ==> !ok && Value() == old(Value())
      ensures ok ==> old(status) == Initiated && now <= expiresAt
    {
      ok := Actionable(Value(), now);
      if ok {
        status := Canceled;
      }
    }

    method Verify(expected: Option<int>, now: int) returns (success: bool)
      modifies this
      ensures (Value(), success) == Decide(old(Value()), Verifying(expected), now)
      ensures Final(old(status)) ==> !success && Value() == old(Value())
      ensures success ==>
                old(status) == Authorized && status == Verified && (expected.Some? ==> expected.value == amount)
      ensures verifiedAt == if success then Some(now) else old(verifiedAt)
    {
      var effective := EffectiveStatus(Value(), now);
      if effective == Expired {
        if status != Expired {
          status := Expired;
        }
        return false;
      }
      if effective != Authorized || (expected.Some? && expected.value != amount) {
        return false;
      }
      status := Verified;
      verifiedAt := Some(now);
      success := true;
    }
  }

  /** A final intent refuses everything and stays as it is; only an authorized one is ever verified. */
  lemma {:induction false} FinalIntentsStay(i: Intent, action: Action, now: int)
    ensures Final(i.status) ==> Decide(i, action, now) == (i, false)
    ensures Decide(i, action, now).1 ==> Decide(i, action, now).0 != i
    ensures Decide(i, action, now).1 && action.Verifying?
        ==> i.status == Authorized && Decide(i, action, now).0.status == Verified
    ensures Decide(i, action, now).0 == i.(status := Decide(i, action, now).0.status)
  {
  }

  // ---- Both databases ----

  /** A request at the page, from its read of the intent to its save: it decides on what it read. A
      verification has the wallet backend waiting for it, since `waiting`, with the purchase's row locked. */
  datatype Request = Request(tx: TxId, action: Action, read: Intent, time: int, waiting: Option<int>, saved: bool) {
    function Outcome(): Intent {
      Decide(read, action, time).0
    }

    predicate Acts() {
      Outcome() != read
    }

    predicate Succeeds() {
      Decide(read, action, time).1
    }
  }

  datatype World = World(bank: State, intents: map<TxId, Intent>, requests: seq<Request>)

  /** `Ask` and `StartVerify` are a request's read, `Save` its write and its answer; `GiveUp` is a wallet
      backend that got no answer and rolls back, whatever the page goes on to do. `Other` is any request at the
      backend that is not about one purchase: deposits, transfers, repayments, payouts, new charges and the rest. */
  datatype Event =
    | Open(user: nat, wallet: WalletId, target: WalletId, amount: int, expires: int, key: string, pageExpires: int)
    | Ask(tx: TxId, cancels: bool, time: int)
    | StartVerify(tx: TxId, now: int, time: int)
    | Save(id: nat, today: Today)
    | GiveUp(id: nat)
    | Drop(tx: TxId)
    | GiveBack(user: nat, tx: TxId, key: string)
    | Other(op: Op)

  /** The verifications that get as far as asking the page. */
  predicate AsksPage(bank: State, p: TxId, now: int) {
    && p < |bank.txs| && bank.txs[p].kind == Purchase && bank.txs[p].from.Some? && bank.txs[p].status == Awaiting
    && (bank.txs[p].expires.Some? ==> bank.txs[p].expires.value >= now)
  }

  predicate Locks(r: Request, p: TxId) {
    r.tx == p && r.waiting.Some?
  }

  /** Someone's transaction at the wallet backend holds the purchase's row. */
  predicate Locked(w: World, p: TxId) {
    exists id :: 0 <= id < |w.requests| && Locks(w.requests[id], p)
  }

  function Saved(w: World, id: nat, today: Today): World
    requires id < |w.requests|
  {
    var r := w.requests[id];
    World(if r.waiting.Some? then Next(w.bank, OpVerify(r.tx, r.Succeeds(), r.waiting.value, today)) else w.bank,
          if r.Acts() && r.tx in w.intents then w.intents[r.tx := w.intents[r.tx].(status := r.Outcome().status)]
              else w.intents,
          w.requests[id := r.(saved := true, waiting := None)])
  }

  function Happen(w: World, e: Event): World {
    match e
    case Open(user, from, to, amount, expires, key, pageExpires) =>
      var r := OpenPurchase(w.bank, user, from, to, amount, expires, key);
      if r.Fail? then w
      else w.(bank := r.value, intents := w.intents[|w.bank.txs| := Intent(Initiated, amount, pageExpires)])
    case Ask(p, cancels, time) =>
      if p !in w.intents then w
      else w.(requests := w.requests
                + [Request(p, if cancels then Canceling else Confirming, w.intents[p], time, None, false)])
    case StartVerify(p, now, time) =>
      if Locked(w, p) || !AsksPage(w.bank, p, now) || p !in w.intents then w
      else w.(requests := w.requests
                + [Request(p, Verifying(Some(w.bank.txs[p].amount)), w.intents[p], time, Some(now), false)])
    case Save(id, today) => if id >= |w.requests| || w.requests[id].saved then w else Saved(w, id, today)
    case GiveUp(id) =>
      if id >= |w.requests| then w else w.(requests := w.requests[id := w.requests[id].(waiting := None)])
    case Drop(p) =>
      if p < |w.bank.txs| && w.bank.txs[p].kind == Purchase
          && !Locked(w, p) then w.(bank := Next(w.bank, OpExpire(p))) else w
    case GiveBack(user, p, key) =>
      if Locked(w, p) then w else w.(bank := Next(w.bank, OpRefund(user, p, key)))
    case Other(op) => if MovesElsewhere(w.bank, op) then w.(bank := Next(w.bank, op)) else w
  }

  function Unfold(w: World, events: seq<Event>): World {
    if |events| == 0 then w else Happen(Unfold(w, events[..|events| - 1]), events[|events| - 1])
  }

  /** The world before event `n`. */
  function At(w: World, events: seq<Event>, n: nat): World
    requires n <= |events|
  {
    Unfold(w, events[..n])
  }

  lemma {:induction false} NextAt(w: World, events: seq<Event>, n: nat)
    requires n < |events|
    ensures At(w, events, n + 1) == Happen(At(w, events, n), events[n])
  {
    assert events[..n + 1][..n] == events[..n];
  }

  /** A request nobody comes between does what the page's method does in one go. */
  lemma {:induction false} UninterruptedRequest(w: World, p: TxId, cancels: bool, time: int, today: Today)
    requires p in w.intents
    ensures var action := if cancels then Canceling else Confirming;
            var after := Happen(Happen(w, Ask(p, cancels, time)), Save(|w.requests|, today));
            after.intents == w.intents[p := Decide(w.intents[p], action, time).0] && after.bank == w.bank
  {
    FinalIntentsStay(w.intents[p], if cancels then Canceling else Confirming, time);
  }

  // ---- What the merchant got ----

  function CreditOf(p: TxId): Entry -> int {
    (e: Entry) => if e.tx == p && MovesMoney(e) then 1 else 0
  }

  function MarkerOf(p: TxId): Tx -> int {
    (t: Tx) => if t.kind == Purchase && t.related == Some(p) then 1 else 0
  }

  /** How often the merchant of `p` was credited, and how often that was taken back. */
  function Credits(bank: State, p: TxId): int {
    Sum(bank.journal, CreditOf(p))
  }

  function Refunds(bank: State, p: TxId): int {
    Sum(bank.txs, MarkerOf(p))
  }

  /** A completed or refunded purchase was credited once, a refunded one refunded once, any other neither. */
  predicate CountsOk(bank: State, p: TxId)
    requires p < |bank.txs|
  {
    match bank.txs[p].status
    case Awaiting => Credits(bank, p) == 0 && Refunds(bank, p) == 0
    case Completed => Credits(bank, p) == 1 && Refunds(bank, p) == 0
    case Reversed => Refunds(bank, p) == Credits(bank, p) && 0 <= Credits(bank, p) <= 1
  }

  predicate RowSound(bank: State, intents: map<TxId, Intent>, p: TxId)
    requires p < |bank.txs|
  {
    && (IsPurchase(bank.txs[p]) ==> CountsOk(bank, p) && (Credits(bank, p) > 0 ==> p in intents))
    && (p in intents ==> IsPurchase(bank.txs[p]) && intents[p].amount == bank.txs[p].amount)
  }

  /** Entries and markers refer to rows that exist. */
  predicate IdsKnown(bank: State) {
    && (forall k :: 0 <= k < |bank.journal| ==> bank.journal[k].tx < |bank.txs|)
    && (forall t :: 0 <= t < |bank.txs| && bank.txs[t].kind == Purchase && bank.txs[t].related.Some? ==>
          bank.txs[t].related.value < |bank.txs|)
  }

  predicate CountsKept(bank: State, intents: map<TxId, Intent>) {
    && (forall p :: 0 <= p < |bank.txs| ==> RowSound(bank, intents, p))
    && (forall p :: p in intents ==> p < |bank.txs|)
  }

  /** While the wallet backend waits, the purchase stays as it was when it asked. */
  predicate RequestOk(w: World, r: Request) {
    && r.tx in w.intents
    && (r.action.Verifying? ==> r.tx < |w.bank.txs| && r.action.expected == Some(w.bank.txs[r.tx].amount))
    && (r.waiting.Some? ==> r.action.Verifying? && !r.saved && AsksPage(w.bank, r.tx, r.waiting.value))
    && r.read.amount == w.intents[r.tx].amount
  }

  predicate RequestsOk(w: World) {
    && (forall id :: 0 <= id < |w.requests| ==> RequestOk(w, w.requests[id]))
    && (forall i, k :: 0 <= i < k < |w.requests| && w.requests[i].waiting.Some? && w.requests[k].waiting.Some? ==>
          w.requests[i].tx != w.requests[k].tx)
  }

  ghost predicate BankSound(bank: State, intents: map<TxId, Intent>) {
    Formed(bank) && IdsKnown(bank) && CountsKept(bank, intents)
  }

  ghost predicate Sound(w: World) {
    BankSound(w.bank, w.intents) && RequestsOk(w)
  }

  // ---- The wallet backend's part of each event ----

  lemma {:induction false} EntriesAdded(j: Journal, e: Entry, p: TxId)
    ensures Sum(j + [e], CreditOf(p)) == Sum(j, CreditOf(p)) + CreditOf(p)(e)
  {
    SumSnoc(j, e, CreditOf(p));
  }

  lemma {:induction false} NothingYet(bank: State, p: TxId)
    requires IdsKnown(bank) && p >= |bank.txs|
    ensures Credits(bank, p) == 0 && Refunds(bank, p) == 0
  {
    SumZero(bank.journal, CreditOf(p));
    SumZero(bank.txs, MarkerOf(p));
  }

  lemma {:induction false} OpenedRows(bank: State, user: nat, from: WalletId, to: WalletId, amount: int, expires: int,
      key: string)
    requires OpenPurchase(bank, user, from, to, amount, expires, key).Ok?
    ensures var after := OpenPurchase(bank, user, from, to, amount, expires, key).value;
            && after.journal == bank.journal && |after.txs| == |bank.txs| + 1 && bank.txs <= after.txs
            && after.txs == bank.txs + [after.txs[|bank.txs|]] && after.txs[|bank.txs|].amount == amount
            && after.txs[|bank.txs|].status == Awaiting && IsPurchase(after.txs[|bank.txs|])
  {
  }

  lemma {:induction false} OpenSound(w: World, e: Event)
    requires Sound(w) && e.Open?
    ensures Sound(Happen(w, e))
  {
    hide Formed, OpenPurchase, CountsOk, Credits, Refunds;
    var r := OpenPurchase(w.bank, e.user, e.wallet, e.target, e.amount, e.expires, e.key);
    if r.Ok? {
      OpenPurchaseGrows(w.bank, e.user, e.wallet, e.target, e.amount, e.expires, e.key);
      OpenedRows(w.bank, e.user, e.wallet, e.target, e.amount, e.expires, e.key);
      NothingYet(w.bank, |w.bank.txs|);
      var after := Happen(w, e);
      forall p | 0 <= p < |r.value.txs| ensures RowSound(after.bank, after.intents, p) {
        OpenedCounts(w.bank, r.value, p);
        if p < |w.bank.txs| {
          assert RowSound(w.bank, w.intents, p);
        }
      }
    }
  }

  lemma {:induction false} OpenedCounts(bank: State, after: State, p: TxId)
    requires after.journal == bank.journal && |after.txs| == |bank.txs| + 1
        && after.txs == bank.txs + [after.txs[|bank.txs|]]
    requires IsPurchase(after.txs[|bank.txs|]) && after.txs[|bank.txs|].status == Awaiting && p < |after.txs|
    ensures Credits(after, p) == Credits(bank, p) && Refunds(after, p) == Refunds(bank, p)
    ensures p < |bank.txs| ==> CountsOk(after, p) == CountsOk(bank, p)
    ensures p == |bank.txs| && Credits(bank, p) == 0 && Refunds(bank, p) == 0 ==> CountsOk(after, p)
  {
    SumSnoc(bank.txs, after.txs[|bank.txs|], MarkerOf(p));
  }

  lemma {:induction false} StatusChanged(bank: State, p: TxId, status: TxStatus, q: TxId)
    requires p < |bank.txs|
    ensures Refunds(SetStatus(bank, p, status), q) == Refunds(bank, q)
    ensures Credits(SetStatus(bank, p, status), q) == Credits(bank, q)
  {
    SumUpdate(bank.txs, p, bank.txs[p].(status := status), MarkerOf(q));
  }

  lemma {:induction false} DroppedSound(bank: State, intents: map<TxId, Intent>, p: TxId)
    requires BankSound(bank, intents) && p < |bank.txs| && bank.txs[p].status == Awaiting
    ensures BankSound(SetStatus(bank, p, Reversed), intents)
  {
    hide Formed;
    assert ExpirePending(bank, p).Ok?;
    ExpireGrows(bank, p);
    var after := SetStatus(bank, p, Reversed);
    forall q | 0 <= q < |after.txs| ensures RowSound(after, intents, q) {
      assert RowSound(bank, intents, q);
      StatusChanged(bank, p, Reversed, q);
    }
  }

  /** What a settled purchase changes in the counts. */
  lemma {:induction false} SettledCounts(bank: State, p: TxId, today: Today, q: TxId)
    requires PlansDrawn(bank.txs, bank.installments) && Ready(bank, p, None) && Settle(bank, p, None, today).Ok?
    ensures var after := Settle(bank, p, None, today).value;
            && Credits(after, q) == Credits(bank, q) + (if q == p then 1 else 0)
            && Refunds(after, q) == Refunds(bank, q)
  {
    hide Settle, PlansDrawn;
    SettleRows(bank, p, None, today);
    var after := Settle(bank, p, None, today).value;
    PurchaseMovesMoney(bank, p);
    var from, amount := bank.txs[p].from.value, Remainder(bank, p, None);
    var posted, tracked := Entry(p, PurchaseLegs(bank, p, None)), Entry(p, ReceivableLegs(Own(bank, from), amount));
    if DrawsOnLine(bank, from, amount) {
      EntriesAdded(bank.journal, tracked, q);
      EntriesAdded(bank.journal + [tracked], posted, q);
    } else {
      assert bank.journal + [] + [posted] == bank.journal + [posted];
      EntriesAdded(bank.journal, posted, q);
    }
    MarkersKept(bank.txs, after.txs, p, q);
  }

  lemma {:induction false} PurchaseMovesMoney(bank: State, p: TxId)
    requires Ready(bank, p, None) && BackingExists(bank, bank.txs[p].from.value)
    ensures MovesMoney(Entry(p, PurchaseLegs(bank, p, None)))
  {
    var debits := FundingLegs(bank, bank.txs[p].from.value, bank.txs[p].amount, None);
    FirstMovementLeg(debits, -1);
    assert PurchaseLegs(bank, p, None)[0] == MovementLegs(debits, -1)[0];
  }

  lemma {:induction false} MarkersKept(before: seq<Tx>, after: seq<Tx>, p: TxId, q: TxId)
    requires |before| <= |after| && p < |before| && NoPurchaseFrom(after, |before|)
    requires after[p] == before[p].(status := after[p].status)
    requires forall id :: 0 <= id < |before| && id != p ==> after[id] == before[id]
    ensures Sum(after, MarkerOf(q)) == Sum(before, MarkerOf(q))
  {
    var known, more := after[..|before|], after[|before|..];
    assert after == known + more;
    SumConcat(known, more, MarkerOf(q));
    SumSame(before, known, MarkerOf(q), MarkerOf(q));
    SumZero(more, MarkerOf(q));
  }

  lemma {:induction false} SettledSound(bank: State, intents: map<TxId, Intent>, p: TxId, today: Today)
    requires BankSound(bank, intents) && Ready(bank, p, None) && bank.txs[p].status == Awaiting && p in intents
    requires Settle(bank, p, None, today).Ok?
    ensures BankSound(Settle(bank, p, None, today).value, intents)
    ensures Credits(Settle(bank, p, None, today).value, p) == 1
  {
    hide Formed, Settle, Follows;
    FormedTables(bank);
    SettleGrows(bank, p, None, today);
    SettleRows(bank, p, None, today);
    var after := Settle(bank, p, None, today).value;
    SettledIds(bank, p, today);
    forall q | 0 <= q < |after.txs| ensures RowSound(after, intents, q) {
      SettledCounts(bank, p, today, q);
      if q < |bank.txs| {
        assert RowSound(bank, intents, q);
      }
    }
    SettledCounts(bank, p, today, p);
    assert RowSound(bank, intents, p);
  }

  lemma {:induction false} SettledIds(bank: State, p: TxId, today: Today)
    requires IdsKnown(bank) && PlansDrawn(bank.txs, bank.installments) && Ready(bank, p, None)
        && Settle(bank, p, None, today).Ok?
    ensures IdsKnown(Settle(bank, p, None, today).value)
  {
    hide Settle, PlansDrawn, PurchaseLegs, ReceivableLegs;
    SettleRows(bank, p, None, today);
  }

  lemma {:induction false} AskedSettles(bank: State, p: TxId, success: bool, now: int, today: Today)
    requires Formed(bank) && AsksPage(bank, p, now)
    ensures Ready(bank, p, None)
    ensures Next(bank, OpVerify(p, success, now, today)) == bank
         || (success && Settle(bank, p, None, today) == Ok(Next(bank, OpVerify(p, success, now, today))))
  {
    hide Formed, Settle;
    FormedRow(bank, p);
  }

  lemma {:induction false} RefundPostsAside(bank: State, p: TxId, key: string, q: TxId)
    requires Refundable(bank, p) && RefundCompleted(bank, p, key).Ok? && q < |bank.txs|
    ensures Credits(RefundCompleted(bank, p, key).value, q) == Credits(bank, q)
  {
    hide RefundCompleted, UnpaidDraw, FundingRepository, RefundCredits, MultiLegs, CancelPlan, HasPlan;
    RefundRows(bank, p, key);
    var after, c := RefundCompleted(bank, p, key).value, CanceledState(bank, p);
    EntriesAdded(c.journal, after.journal[|c.journal|], q);
    if c.journal != bank.journal {
      EntriesAdded(bank.journal, c.journal[|bank.journal|], q);
    }
  }

  lemma {:induction false} RefundMarkers(bank: State, p: TxId, key: string, q: TxId)
    requires Refundable(bank, p) && RefundCompleted(bank, p, key).Ok? && q < |bank.txs|
    ensures Refunds(RefundCompleted(bank, p, key).value, q) == Refunds(bank, q) + if q == p then 1 else 0
  {
    hide RefundCompleted, UnpaidDraw, FundingRepository, RefundCredits, MultiLegs, CancelPlan, HasPlan;
    RefundRows(bank, p, key);
    var row, c := RefundRowOf(bank, p, key), CanceledState(bank, p);
    SumSnoc(c.txs + Returned(bank, p), row, MarkerOf(q));
    SumConcat(c.txs, Returned(bank, p), MarkerOf(q));
    SumZero(Returned(bank, p), MarkerOf(q));
    SumUpdate(bank.txs, p, bank.txs[p].(status := Reversed), MarkerOf(q));
  }

  lemma {:induction false} RefundedCounts(bank: State, p: TxId, key: string, q: TxId)
    requires Refundable(bank, p) && RefundCompleted(bank, p, key).Ok? && q < |bank.txs|
    ensures var after := RefundCompleted(bank, p, key).value;
            Credits(after, q) == Credits(bank, q) && Refunds(after, q) == Refunds(bank, q) + if q == p then 1 else 0
  {
    hide RefundCompleted, Credits, Refunds, Refundable;
    RefundPostsAside(bank, p, key, q);
    RefundMarkers(bank, p, key, q);
  }

  lemma {:induction false} RefundedIds(bank: State, p: TxId, key: string)
    requires Refundable(bank, p) && RefundCompleted(bank, p, key).Ok? && IdsKnown(bank)
    ensures var after := RefundCompleted(bank, p, key).value;
            && IdsKnown(after) && |bank.txs| <= |after.txs| && after.txs[p] == bank.txs[p].(status := Reversed)
            && (forall q :: 0 <= q < |bank.txs| && q != p ==> after.txs[q] == bank.txs[q])
            && (forall q :: |bank.txs| <= q < |after.txs| ==> !IsPurchase(after.txs[q]))
  {
    hide RefundCompleted, UnpaidDraw, FundingRepository, RefundCredits, MultiLegs, CancelPlan, ReceivableLegs;
    RefundRows(bank, p, key);
  }

  lemma {:induction false} RefundedSound(bank: State, intents: map<TxId, Intent>, p: TxId, key: string)
    requires BankSound(bank, intents) && p < |bank.txs| && bank.txs[p].kind == Purchase
        && bank.txs[p].status == Completed
    requires RefundCompleted(bank, p, key).Ok?
    ensures BankSound(RefundCompleted(bank, p, key).value, intents)
  {
    hide Formed, RefundCompleted, IdsKnown, Refundable, Follows;
    CompletedCanBeRefunded(bank, p);
    RefundGrows(bank, p, key);
    RefundedIds(bank, p, key);
    var after := RefundCompleted(bank, p, key).value;
    forall q | 0 <= q < |after.txs| ensures RowSound(after, intents, q) {
      if q < |bank.txs| {
        RefundedCounts(bank, p, key, q);
        assert RowSound(bank, intents, q);
      }
    }
  }

  /** A row nobody has locked changes; the waiting verifications do not notice. */
  lemma {:induction false} OthersWait(w: World, after: State, p: TxId)
    requires RequestsOk(w) && |w.bank.txs| <= |after.txs| && !Locked(w, p)
    requires forall q :: 0 <= q < |w.bank.txs| ==> after.txs[q].amount == w.bank.txs[q].amount
    requires forall q :: 0 <= q < |w.bank.txs| && q != p ==> after.txs[q] == w.bank.txs[q]
    ensures RequestsOk(w.(bank := after))
  {
    forall id | 0 <= id < |w.requests| ensures RequestOk(w.(bank := after), w.requests[id]) {
      assert RequestOk(w, w.requests[id]);
      assert !Locks(w.requests[id], p);
    }
  }

  lemma {:induction false} DropSound(w: World, e: Event)
    requires Sound(w) && e.Drop?
    ensures Sound(Happen(w, e))
  {
    hide Formed, BankSound, RequestsOk, Locked;
    if Happen(w, e) != w {
      DroppedSound(w.bank, w.intents, e.tx);
      OthersWait(w, Happen(w, e).bank, e.tx);
    }
  }

  lemma {:induction false} GiveBackSound(w: World, e: Event)
    requires Sound(w) && e.GiveBack?
    ensures Sound(Happen(w, e))
  {
    hide Formed, RefundCompleted, RequestsOk, Locked, IdsKnown, CountsKept;
    if Refund(w.bank, e.user, e.tx, e.key).Ok? && !Locked(w, e.tx) {
      if w.bank.txs[e.tx].status == Awaiting {
        DroppedSound(w.bank, w.intents, e.tx);
      } else {
        CompletedCanBeRefunded(w.bank, e.tx);
        RefundedSound(w.bank, w.intents, e.tx, e.key);
        RefundedIds(w.bank, e.tx, e.key);
      }
      OthersWait(w, Happen(w, e).bank, e.tx);
    }
  }

  // ---- Everything else at the wallet backend ----

  lemma {:induction false} AsideCredits(bank: State, after: State, p: TxId)
    requires Aside(bank, after) && p < |after.txs| && after.txs[p].kind == Purchase
    ensures Credits(after, p) == Credits(bank, p)
  {
    hide MovesMoney;
    var more := after.journal[|bank.journal|..];
    assert after.journal == bank.journal + more;
    SumConcat(bank.journal, more, CreditOf(p));
    forall k | 0 <= k < |more| ensures CreditOf(p)(more[k]) == 0 {
      assert PostedAside(after.txs, after.journal[|bank.journal| + k]);
    }
    SumZero(more, CreditOf(p));
  }

  lemma {:induction false} AsideRefunds(bank: State, after: State, p: TxId)
    requires Aside(bank, after)
    ensures Refunds(after, p) == Refunds(bank, p)
  {
    hide PostedAside;
    var known, rows := after.txs[..|bank.txs|], after.txs[|bank.txs|..];
    assert after.txs == known + rows;
    SumConcat(known, rows, MarkerOf(p));
    SumSame(bank.txs, known, MarkerOf(p), MarkerOf(p));
    SumZero(rows, MarkerOf(p));
  }

  lemma {:induction false} AsideCounts(bank: State, after: State, p: TxId)
    requires Aside(bank, after) && p < |after.txs| && after.txs[p].kind == Purchase
    ensures Credits(after, p) == Credits(bank, p) && Refunds(after, p) == Refunds(bank, p)
  {
    hide Aside, Credits, Refunds;
    AsideCredits(bank, after, p);
    AsideRefunds(bank, after, p);
  }

  lemma {:induction false} AsideIds(bank: State, after: State)
    requires Aside(bank, after) && IdsKnown(bank)
    ensures IdsKnown(after)
  {
    hide MovesMoney;
    forall k | 0 <= k < |after.journal| ensures after.journal[k].tx < |after.txs| {
      if k >= |bank.journal| {
        assert PostedAside(after.txs, after.journal[k]);
      }
    }
  }

  lemma {:induction false} AsideSound(bank: State, after: State, intents: map<TxId, Intent>)
    requires BankSound(bank, intents) && Aside(bank, after) && Formed(after)
    ensures BankSound(after, intents)
  {
    hide Formed, Credits, Refunds, IdsKnown;
    AsideIds(bank, after);
    forall p | 0 <= p < |after.txs| ensures RowSound(after, intents, p) {
      if after.txs[p].kind == Purchase {
        AsideCounts(bank, after, p);
      }
      if p < |bank.txs| {
        assert RowSound(bank, intents, p);
      } else {
        NothingYet(bank, p);
      }
    }
  }

  lemma {:induction false} OtherSound(w: World, e: Event)
    requires Sound(w) && e.Other?
    ensures Sound(Happen(w, e))
  {
    hide Formed, Next, BankSound, MovesElsewhere;
    var after := Happen(w, e);
    if after != w {
      OtherAside(w, e);
      assert Formed(w.bank) by {
        SoundTables(w);
      }
      NextFormed(w.bank, e.op);
      AsideSound(w.bank, after.bank, w.intents);
      forall id | 0 <= id < |after.requests| ensures RequestOk(after, after.requests[id]) {
        assert RequestOk(w, w.requests[id]);
        IntentIsPurchase(w, w.requests[id].tx);
      }
    }
  }

  lemma {:induction false} OtherAside(w: World, e: Event)
    requires e.Other?
    ensures Aside(w.bank, Happen(w, e).bank)
  {
    hide Step, MovesElsewhere, Aside;
    NothingAside(w.bank, w.bank);
    if MovesElsewhere(w.bank, e.op) && Step(w.bank, e.op).Ok? {
      StepAside(w.bank, e.op);
    }
  }

  lemma {:induction false} SoundTables(w: World)
    requires Sound(w)
    ensures Formed(w.bank)
  {
    hide Formed;
  }

  lemma {:induction false} NextFormed(bank: State, op: Op)
    requires Formed(bank)
    ensures Formed(Next(bank, op))
  {
    hide Formed, Step;
    if Step(bank, op).Ok? {
      StepGrows(bank, op);
    }
  }

  lemma {:induction false} IntentIsPurchase(w: World, p: TxId)
    requires Sound(w) && p in w.intents
    ensures p < |w.bank.txs| && IsPurchase(w.bank.txs[p])
  {
    hide Formed, Credits;
    assert RowSound(w.bank, w.intents, p);
  }

  // ---- The page's part ----

  lemma {:induction false} AskSound(w: World, e: Event)
    requires Sound(w) && (e.Ask? || e.StartVerify? || e.GiveUp?)
    ensures Sound(Happen(w, e))
  {
    hide BankSound;
    var after := Happen(w, e);
    forall id | 0 <= id < |after.requests| ensures RequestOk(after, after.requests[id]) {
      if id < |w.requests| {
        assert RequestOk(w, w.requests[id]);
      }
    }
    forall id | 0 <= id < |w.requests| && e.StartVerify? && after != w ensures !Locks(w.requests[id], e.tx) {
    }
  }

  /** Statuses of intents are nothing to the wallet backend. */
  lemma {:induction false} IntentReplaced(bank: State, intents: map<TxId, Intent>, p: TxId, status: IntentStatus)
    requires BankSound(bank, intents) && p in intents
    ensures BankSound(bank, intents[p := intents[p].(status := status)])
  {
    hide Formed, CountsOk, Credits;
    var after := intents[p := intents[p].(status := status)];
    forall q | 0 <= q < |bank.txs| ensures RowSound(bank, after, q) {
      assert RowSound(bank, intents, q);
    }
  }

  lemma {:induction false} SaveSound(w: World, id: nat, today: Today)
    requires Sound(w) && id < |w.requests| && !w.requests[id].saved
    ensures Sound(Saved(w, id, today))
    ensures Credits(w.bank, w.requests[id].tx) <= Credits(Saved(w, id, today).bank, w.requests[id].tx)
    ensures Credits(w.bank, w.requests[id].tx) != Credits(Saved(w, id, today).bank, w.requests[id].tx) ==>
              w.requests[id].Acts() && w.requests[id].Outcome().status == Verified
  {
    hide Formed, Next, IdsKnown, CountsKept, Settle, Decide;
    var r, after := w.requests[id], Saved(w, id, today);
    assert RequestOk(w, r);
    FinalIntentsStay(r.read, r.action, r.time);
    if r.waiting.Some? {
      AskedSettles(w.bank, r.tx, r.Succeeds(), r.waiting.value, today);
      if after.bank != w.bank {
        SettledSound(w.bank, w.intents, r.tx, today);
        CreditedBefore(w.bank, w.intents, r.tx);
        SettledRest(w.bank, r.tx, today);
      }
    }
    if r.Acts() {
      IntentReplaced(after.bank, w.intents, r.tx, r.Outcome().status);
    }
    forall k | 0 <= k < |after.requests| ensures RequestOk(after, after.requests[k]) {
      assert RequestOk(w, w.requests[k]);
    }
  }

  lemma {:induction false} CreditedBefore(bank: State, intents: map<TxId, Intent>, p: TxId)
    requires BankSound(bank, intents) && p < |bank.txs| && IsPurchase(bank.txs[p]) && bank.txs[p].status == Awaiting
    ensures Credits(bank, p) == 0
  {
    assert RowSound(bank, intents, p);
  }

  lemma {:induction false} SettledRest(bank: State, p: TxId, today: Today)
    requires Formed(bank) && Ready(bank, p, None) && Settle(bank, p, None, today).Ok?
    ensures var after := Settle(bank, p, None, today).value;
            && |bank.txs| <= |after.txs|
                && (forall q :: 0 <= q < |bank.txs| ==> after.txs[q].amount == bank.txs[q].amount)
            && forall q :: 0 <= q < |bank.txs| && q != p ==> after.txs[q] == bank.txs[q]
  {
    hide Formed, Settle;
    FormedTables(bank);
    SettleRows(bank, p, None, today);
  }

  // ---- Every interleaving ----

  lemma {:induction false} HappenSound(w: World, e: Event)
    requires Sound(w)
    ensures Sound(Happen(w, e))
  {
    hide Sound, Saved;
    match e
    case Open(_, _, _, _, _, _, _) => OpenSound(w, e);
    case Save(id, today) => if id < |w.requests| && !w.requests[id].saved { SaveSound(w, id, today); }
    case Drop(_) => DropSound(w, e);
    case GiveBack(_, _, _) => GiveBackSound(w, e);
    case Other(_) => OtherSound(w, e);
    case _ => AskSound(w, e);
  }

  lemma {:induction false} UnfoldSound(w: World, events: seq<Event>)
    requires Sound(w)
    ensures Sound(Unfold(w, events))
  {
    hide Sound, Happen;
    if |events| > 0 {
      UnfoldSound(w, events[..|events| - 1]);
      HappenSound(Unfold(w, events[..|events| - 1]), events[|events| - 1]);
    }
  }

  /** Any state of the wallet backend's tables, as long as no purchase was opened yet. */
  lemma {:induction false} StartIsSound(bank: State)
    requires Formed(bank) && forall t :: 0 <= t < |bank.txs| ==> bank.txs[t].kind != Purchase
    requires forall k :: 0 <= k < |bank.journal| ==> bank.journal[k].tx < |bank.txs|
    ensures Sound(World(bank, map[], []))
  {
    hide Formed, Credits, Refunds;
  }

  /** Over every interleaving, with reads and saves at the page as far apart as can be: the merchant of a
      purchase is credited at most once, refunded at most once and never without a credit, and COMPLETED
      means credited and not refunded. */
  lemma {:induction false} PaidOnce(w: World, events: seq<Event>, p: TxId)
    requires Sound(w)
    requires var after := Unfold(w, events); p < |after.bank.txs| && IsPurchase(after.bank.txs[p])
    ensures var after := Unfold(w, events);
            && 0 <= Refunds(after.bank, p) <= Credits(after.bank, p) <= 1
            && (after.bank.txs[p].status == Completed <==> Credits(after.bank, p) == 1 && Refunds(after.bank, p) == 0)
            && (Credits(after.bank, p) == 1
                ==> p in after.intents && after.intents[p].amount == after.bank.txs[p].amount)
  {
    hide Formed, Unfold;
    UnfoldSound(w, events);
    assert RowSound(Unfold(w, events).bank, Unfold(w, events).intents, p);
  }

  // ---- What an event leaves ----

  predicate SameRequest(a: Request, b: Request) {
    b == a.(waiting := b.waiting, saved := b.saved) && (a.saved ==> b.saved)
  }

  /** Requests keep what they read, and a new one reads the intent as it is. */
  lemma {:induction false} RequestsKept(w: World, e: Event)
    ensures var after := Happen(w, e);
            && |w.requests| <= |after.requests| <= |w.requests| + 1
            && (forall id :: 0 <= id < |w.requests| ==> SameRequest(w.requests[id], after.requests[id]))
            && (|after.requests| > |w.requests| ==>
                  var r := after.requests[|w.requests|];
                  after.intents == w.intents && after.bank == w.bank && r.tx in w.intents && r.read == w.intents[r.tx])
  {
  }

  /** Only a save changes an intent, and only that of its own purchase. */
  lemma {:induction false} IntentsKept(w: World, e: Event, p: TxId)
    requires p in w.intents && Sound(w)
    ensures p in Happen(w, e).intents
    ensures Happen(w, e).intents[p] != w.intents[p] ==>
              && e.Save? && e.id < |w.requests| && !w.requests[e.id].saved && w.requests[e.id].tx == p
                  && w.requests[e.id].Acts()
              && Happen(w, e).intents[p] == w.intents[p].(status := w.requests[e.id].Outcome().status)
  {
    hide Formed, Next;
  }

  lemma {:induction false} CreditsStay(w: World, e: Event, p: TxId)
    requires Sound(w)
    ensures Credits(w.bank, p) <= Credits(Happen(w, e).bank, p)
  {
    hide Formed, Next, Saved;
    var after := Happen(w, e);
    BankGrows(w, e);
    assert after.bank.journal == w.bank.journal + after.bank.journal[|w.bank.journal|..];
    SumConcat(w.bank.journal, after.bank.journal[|w.bank.journal|..], CreditOf(p));
    SumNonNegative(after.bank.journal[|w.bank.journal|..], CreditOf(p));
  }

  lemma {:induction false} NextGrows(bank: State, op: Op)
    requires Formed(bank)
    ensures bank.journal <= Next(bank, op).journal
  {
    hide Formed, Step;
    if Step(bank, op).Ok? {
      StepGrows(bank, op);
    }
  }

  lemma {:induction false} BankGrows(w: World, e: Event)
    requires Sound(w)
    ensures w.bank.journal <= Happen(w, e).bank.journal
  {
    hide Formed, Next, OpenPurchase, Locked;
    match e
    case Open(user, from, to, amount, expires, key,
        _) => if OpenPurchase(w.bank, user, from, to, amount, expires, key).Ok? {
        OpenedRows(w.bank, user, from, to, amount, expires, key);
      }
    case Save(id, today) => if id < |w.requests| && w.requests[id].waiting.Some? {
        NextGrows(w.bank, OpVerify(w.requests[id].tx, w.requests[id].Succeeds(), w.requests[id].waiting.value, today));
      }
    case Drop(p) => NextGrows(w.bank, OpExpire(p));
    case GiveBack(user, p, key) => NextGrows(w.bank, OpRefund(user, p, key));
    case Other(op) => NextGrows(w.bank, op);
    case _ =>
  }

  // ---- When final intents stay final ----

  predicate IsFinal(w: World, p: TxId) {
    p in w.intents && Final(w.intents[p].status)
  }

  /** Event `k` is the write that makes the intent of `p` VERIFIED, CANCELED or EXPIRED. */
  predicate Finalizes(w: World, events: seq<Event>, k: nat, p: TxId)
    requires k < |events|
  {
    !IsFinal(At(w, events, k), p) && IsFinal(At(w, events, k + 1), p)
  }

  predicate FinalKept(w: World, events: seq<Event>, n: nat)
    requires n < |events|
  {
    forall p :: p in At(w, events, n).intents && IsFinal(At(w, events, n), p) ==>
      p in At(w, events, n + 1).intents && At(w, events, n + 1).intents[p] == At(w, events, n).intents[p]
  }

  /** Event `n` is a save of something to write. */
  predicate Writes(w: World, events: seq<Event>, n: nat)
    requires n < |events|
  {
    && events[n].Save? && events[n].id < |At(w, events, n).requests|
    && !At(w, events, n).requests[events[n].id].saved && At(w, events, n).requests[events[n].id].Acts()
  }

  function Writer(w: World, events: seq<Event>, n: nat): Request
    requires n < |events| && Writes(w, events, n)
  {
    At(w, events, n).requests[events[n].id]
  }

  /** The request that event `n` saves had read its intent before event `k`. */
  predicate ReadBefore(w: World, events: seq<Event>, n: nat, k: nat)
    requires k < n < |events| && Writes(w, events, n)
  {
    events[n].id < |At(w, events, k).requests|
  }

  /** A late save: read, then someone else's finalizing write, then this one, which decided otherwise. */
  predicate LateSave(w: World, events: seq<Event>, n: nat, k: nat)
    requires k < n < |events|
  {
    && Writes(w, events, n) && ReadBefore(w, events, n, k)
    && Finalizes(w, events, k, Writer(w, events, n).tx)
    && Writer(w, events, n).Outcome().status != At(w, events, k + 1).intents[Writer(w, events, n).tx].status
  }

  /** Where an intent became final, seen from a request that read it before. */
  lemma {:induction false} FinalizedSince(w: World, events: seq<Event>, n: nat, id: nat) returns (k: nat)
    requires Sound(w) && w.requests == [] && n <= |events| && forall m :: 0 <= m < n ==> FinalKept(w, events, m)
    requires id < |At(w, events, n).requests| && At(w, events, n).requests[id].Acts()
    requires IsFinal(At(w, events, n), At(w, events, n).requests[id].tx)
    ensures var p := At(w, events, n).requests[id].tx;
            && k < n && id < |At(w, events, k).requests| && Finalizes(w, events, k, p)
            && p in At(w, events, k + 1).intents && At(w, events, k + 1).intents[p] == At(w, events, n).intents[p]
  {
    hide Sound, Happen, At, Unfold;
    StartsAt(w, events);
    if n > 0 {
      var before, after := At(w, events, n - 1), At(w, events, n);
      var p := after.requests[id].tx;
      NextAt(w, events, n - 1);
      RequestsKept(before, events[n - 1]);
      FinalIntentsStay(after.requests[id].read, after.requests[id].action, after.requests[id].time);
      if IsFinal(before, p) {
        assert FinalKept(w, events, n - 1);
        k := FinalizedSince(w, events, n - 1, id);
      } else {
        k := n - 1;
      }
    }
  }

  lemma {:induction false} StartsAt(w: World, events: seq<Event>)
    ensures At(w, events, 0) == w
  {
  }

  lemma {:induction false} SoundAt(w: World, events: seq<Event>, n: nat)
    requires Sound(w) && n <= |events|
    ensures Sound(At(w, events, n))
  {
    hide Sound;
    UnfoldSound(w, events[..n]);
  }

  lemma {:induction false} FinalStays(w: World, events: seq<Event>, from: nat, n: nat, p: TxId)
    requires from <= n <= |events| && forall m :: 0 <= m < n ==> FinalKept(w, events, m)
    requires IsFinal(At(w, events, from), p)
    ensures IsFinal(At(w, events, n), p) && At(w, events, n).intents[p] == At(w, events, from).intents[p]
  {
    hide At;
    if from < n {
      FinalStays(w, events, from, n - 1, p);
      assert FinalKept(w, events, n - 1);
    }
  }

  /** An event that changes a final intent is a late save. */
  lemma {:induction false} KeptOrLate(w: World, events: seq<Event>, n: nat)
    requires Sound(w) && w.requests == [] && n < |events| && forall m :: 0 <= m < n ==> FinalKept(w, events, m)
    ensures FinalKept(w, events, n) || exists k :: 0 <= k < n && LateSave(w, events, n, k)
  {
    hide Sound, Happen, At, Decide;
    if !FinalKept(w, events, n) {
      NextAt(w, events, n);
      SoundAt(w, events, n);
      var p :| p in At(w, events, n).intents && IsFinal(At(w, events, n), p)
               && !(p in At(w, events, n + 1).intents
                   && At(w, events, n + 1).intents[p] == At(w, events, n).intents[p]);
      IntentsKept(At(w, events, n), events[n], p);
      var k := FinalizedSince(w, events, n, events[n].id);
      assert LateSave(w, events, n, k);
    }
  }

  lemma {:induction false} NotLateAllKept(w: World, events: seq<Event>, n: nat)
    requires Sound(w) && w.requests == [] && n <= |events|
    requires forall m, k :: 0 <= k < m < |events| ==> !LateSave(w, events, m, k)
    ensures forall m :: 0 <= m < n ==> FinalKept(w, events, m)
  {
    hide Sound, FinalKept, LateSave;
    if n > 0 {
      NotLateAllKept(w, events, n - 1);
      KeptOrLate(w, events, n - 1);
    }
  }

  /** A late save that goes through overwrites a final intent. */
  lemma {:induction false} LateOverwrites(w: World, events: seq<Event>, n: nat, k: nat)
    requires Sound(w) && k < n < |events| && forall m :: 0 <= m < n ==> FinalKept(w, events, m)
    requires LateSave(w, events, n, k)
    ensures !FinalKept(w, events, n)
  {
    hide Sound, At, Next, Decide;
    NextAt(w, events, n);
    SoundAt(w, events, n);
    FinalStays(w, events, k + 1, n, Writer(w, events, n).tx);
  }

  /** VERIFIED, CANCELED and persisted EXPIRED intents never change again if and only if no request saves
      after another's finalizing write what it had decided from a read before it. */
  lemma {:induction false} FinalExactly(w: World, events: seq<Event>)
    requires Sound(w) && w.requests == []
    ensures (forall n :: 0 <= n < |events| ==> FinalKept(w, events, n))
       <==> (forall n, k :: 0 <= k < n < |events| ==> !LateSave(w, events, n, k))
  {
    hide Sound, FinalKept, LateSave;
    if forall n, k :: 0 <= k < n < |events| ==> !LateSave(w, events, n, k) {
      NotLateAllKept(w, events, |events|);
    }
    if forall n :: 0 <= n < |events| ==> FinalKept(w, events, n) {
      forall n, k | 0 <= k < n < |events| ensures !LateSave(w, events, n, k) {
        if LateSave(w, events, n, k) {
          LateOverwrites(w, events, n, k);
        }
      }
    }
  }

  // ---- When what was paid stays backed ----

  /** Whatever was credited has a VERIFIED intent. */
  predicate Backed(w: World) {
    forall p :: p in w.intents && Credits(w.bank, p) > 0 ==> w.intents[p].status == Verified
  }

  predicate CreditedAt(w: World, events: seq<Event>, k: nat, p: TxId)
    requires k < |events|
  {
    Credits(At(w, events, k).bank, p) == 0 && Credits(At(w, events, k + 1).bank, p) > 0
  }

  /** Read before the merchant was credited, saved after it, and not as VERIFIED. */
  predicate Unbacks(w: World, events: seq<Event>, n: nat, k: nat)
    requires k < n < |events|
  {
    && Writes(w, events, n) && ReadBefore(w, events, n, k)
    && CreditedAt(w, events, k, Writer(w, events, n).tx) && Writer(w, events, n).Outcome().status != Verified
  }

  lemma {:induction false} NoNegativeCredits(bank: State, p: TxId)
    ensures Credits(bank, p) >= 0
  {
    SumNonNegative(bank.journal, CreditOf(p));
  }

  /** Where the merchant was credited, seen from a request that read the intent before. */
  lemma {:induction false} CreditedSince(w: World, events: seq<Event>, n: nat, id: nat) returns (k: nat)
    requires Sound(w) && w.requests == [] && n <= |events| && forall m :: 0 <= m < n ==> Backed(At(w, events, m))
    requires id < |At(w, events, n).requests| && At(w, events, n).requests[id].Acts()
    requires Credits(At(w, events, n).bank, At(w, events, n).requests[id].tx) > 0
    ensures var p := At(w, events, n).requests[id].tx;
            k < n && id < |At(w, events, k).requests| && CreditedAt(w, events, k, p)
  {
    hide Sound, Happen, At, Credits;
    StartsAt(w, events);
    if n > 0 {
      var before, after := At(w, events, n - 1), At(w, events, n);
      var p := after.requests[id].tx;
      NextAt(w, events, n - 1);
      RequestsKept(before, events[n - 1]);
      NoNegativeCredits(before.bank, p);
      FinalIntentsStay(after.requests[id].read, after.requests[id].action, after.requests[id].time);
      if Credits(before.bank, p) > 0 {
        assert Backed(before);
        k := CreditedSince(w, events, n - 1, id);
      } else {
        k := n - 1;
      }
    }
  }

  /** The credit itself comes with the VERIFIED write. */
  lemma {:induction false} CreditIsVerified(w: World, e: Event, p: TxId)
    requires Sound(w) && p in w.intents && Credits(w.bank, p) == 0 && Credits(Happen(w, e).bank, p) > 0
    ensures p in Happen(w, e).intents && Happen(w, e).intents[p].status == Verified
  {
    hide Formed, Next, Credits, IdsKnown, CountsKept, Decide;
    OnlySavesCredit(w, e, p);
    SaveSound(w, e.id, e.today);
  }

  lemma {:induction false} OnlySavesCredit(w: World, e: Event, p: TxId)
    requires Sound(w) && p in w.intents && Credits(w.bank, p) == 0 && Credits(Happen(w, e).bank, p) > 0
    ensures e.Save? && e.id < |w.requests| && !w.requests[e.id].saved && w.requests[e.id].tx == p
  {
    hide Formed, Next, OpenPurchase, Settle, Locked;
    match e {
      case Open(user, from, to, amount, expires, key, _) =>
        if OpenPurchase(w.bank, user, from, to, amount, expires, key).Ok? {
          OpenedRows(w.bank, user, from, to, amount, expires, key);
        }
      case Drop(q) => DropPostsNothing(w.bank, q);
      case GiveBack(user, q, key) => GiveBackCredits(w.bank, user, q, key, p);
      case Other(op) => OtherCredits(w, e, p);
      case Save(id, today) =>
        if id < |w.requests| && w.requests[id].waiting.Some? && w.requests[id].tx != p {
          SaveCredits(w, id, today, p);
        }
      case _ =>
    }
  }

  lemma {:induction false} OtherCredits(w: World, e: Event, p: TxId)
    requires Sound(w) && e.Other? && p in w.intents
    ensures Credits(Happen(w, e).bank, p) == Credits(w.bank, p)
  {
    hide Sound, Happen, Credits;
    OtherAside(w, e);
    IntentIsPurchase(w, p);
    AsideCounts(w.bank, Happen(w, e).bank, p);
  }

  lemma {:induction false} SaveCredits(w: World, id: nat, today: Today, p: TxId)
    requires Sound(w) && id < |w.requests| && w.requests[id].waiting.Some? && p != w.requests[id].tx
    ensures Credits(Saved(w, id, today).bank, p) == Credits(w.bank, p)
  {
    hide Formed, Next, Settle, Credits;
    var r := w.requests[id];
    assert RequestOk(w, r);
    AskedSettles(w.bank, r.tx, r.Succeeds(), r.waiting.value, today);
    if Saved(w, id, today).bank != w.bank {
      FormedTables(w.bank);
      SettledCounts(w.bank, r.tx, today, p);
    }
  }

  lemma {:induction false} DropPostsNothing(bank: State, p: TxId)
    ensures Next(bank, OpExpire(p)).journal == bank.journal
  {
  }

  lemma {:induction false} GiveBackCredits(bank: State, user: nat, q: TxId, key: string, p: TxId)
    requires Formed(bank) && p < |bank.txs|
    ensures Credits(Next(bank, OpRefund(user, q, key)), p) == Credits(bank, p)
  {
    hide Formed, RefundCompleted, Refundable, Credits;
    if Refund(bank, user, q, key).Ok? {
      if bank.txs[q].status == Awaiting {
        StatusChanged(bank, q, Reversed, p);
      } else {
        CompletedCanBeRefunded(bank, q);
        RefundedCounts(bank, q, key, p);
      }
    }
  }

  lemma {:induction false} NewIntentUncredited(w: World, e: Event, p: TxId)
    requires Sound(w) && p !in w.intents && p in Happen(w, e).intents
    ensures Credits(Happen(w, e).bank, p) == 0
  {
    hide Formed, Next, OpenPurchase;
    OpenedRows(w.bank, e.user, e.wallet, e.target, e.amount, e.expires, e.key);
    NothingYet(w.bank, p);
  }

  /** An event that leaves a credited purchase without its VERIFIED intent is such a save. */
  lemma {:induction false} BackedOrLate(w: World, events: seq<Event>, n: nat)
    requires Sound(w) && w.requests == [] && n < |events| && forall m :: 0 <= m <= n ==> Backed(At(w, events, m))
    ensures Backed(At(w, events, n + 1)) || exists k :: 0 <= k < n && Unbacks(w, events, n, k)
  {
    hide Sound, Happen, At, Credits, Decide;
    NextAt(w, events, n);
    SoundAt(w, events, n);
    var before, after := At(w, events, n), At(w, events, n + 1);
    if !Backed(after) {
      var p :| p in after.intents && Credits(after.bank, p) > 0 && after.intents[p].status != Verified;
      NoNegativeCredits(before.bank, p);
      if p !in before.intents {
        NewIntentUncredited(before, events[n], p);
      } else {
        if Credits(before.bank, p) == 0 {
          CreditIsVerified(before, events[n], p);
        }
        IntentsKept(before, events[n], p);
        var k := CreditedSince(w, events, n, events[n].id);
        assert Unbacks(w, events, n, k);
      }
    }
  }

  lemma {:induction false} AllBacked(w: World, events: seq<Event>, n: nat)
    requires Sound(w) && w.requests == [] && Backed(w) && n <= |events|
    requires forall m, k :: 0 <= k < m < |events| ==> !Unbacks(w, events, m, k)
    ensures forall m :: 0 <= m <= n ==> Backed(At(w, events, m))
  {
    hide Sound, Backed, Unbacks, At;
    if n > 0 {
      AllBacked(w, events, n - 1);
      BackedOrLate(w, events, n - 1);
    } else {
      StartsAt(w, events);
    }
  }

  lemma {:induction false} CreditsRemain(w: World, events: seq<Event>, from: nat, n: nat, p: TxId)
    requires Sound(w) && from <= n <= |events|
    ensures Credits(At(w, events, from).bank, p) <= Credits(At(w, events, n).bank, p)
  {
    hide Sound, At, Credits, Happen;
    if from < n {
      CreditsRemain(w, events, from, n - 1, p);
      NextAt(w, events, n - 1);
      SoundAt(w, events, n - 1);
      CreditsStay(At(w, events, n - 1), events[n - 1], p);
    }
  }

  lemma {:induction false} LateUnbacks(w: World, events: seq<Event>, n: nat, k: nat)
    requires Sound(w) && k < n < |events| && Unbacks(w, events, n, k)
    ensures !Backed(At(w, events, n + 1))
  {
    hide Formed, At, Next, Decide, Credits, IdsKnown, CountsKept;
    NextAt(w, events, n);
    SoundAt(w, events, n);
    var p := Writer(w, events, n).tx;
    assert RequestOk(At(w, events, n), Writer(w, events, n));
    CreditsRemain(w, events, k + 1, n + 1, p);
  }

  /** Whatever was credited has a VERIFIED intent of its amount, all the time, if and only if no request
      that read the intent before the credit saves another status after it. */
  lemma {:induction false} BackedExactly(w: World, events: seq<Event>)
    requires Sound(w) && w.requests == [] && Backed(w)
    ensures (forall n :: 0 <= n <= |events| ==> Backed(At(w, events, n)))
       <==> (forall n, k :: 0 <= k < n < |events| ==> !Unbacks(w, events, n, k))
  {
    hide Sound, Backed, Unbacks, At;
    if forall n, k :: 0 <= k < n < |events| ==> !Unbacks(w, events, n, k) {
      AllBacked(w, events, |events|);
    }
    if forall n :: 0 <= n <= |events| ==> Backed(At(w, events, n)) {
      forall n, k | 0 <= k < n < |events| ensures !Unbacks(w, events, n, k) {
        if Unbacks(w, events, n, k) {
          LateUnbacks(w, events, n, k);
        }
      }
    }
  }

  // ---- Both do happen ----

  /** A customer who cancels in one window and pays in another: the cancellation read first is saved last. */
  function CancelBehindPayment(w: World, p: TxId, today: Today): seq<Event> {
    var n := |w.requests|;
    [Ask(p, true, 0), Ask(p, false, 0), Save(n + 1, today), StartVerify(p, 0, 0), Save(n + 2, today), Save(n, today)]
  }

  lemma {:induction false} UnfoldSix(w: World, events: seq<Event>)
    requires |events| == 6
    ensures Unfold(w, events)
         == Happen(Happen(Happen(Happen(Happen(Happen(w, events[0]), events[1]), events[2]), events[3]), events[4]),
             events[5])
  {
    hide Happen;
    assert events[..6] == events;
    StartsAt(w, events);
    NextAt(w, events, 0);
    NextAt(w, events, 1);
    NextAt(w, events, 2);
    NextAt(w, events, 3);
    NextAt(w, events, 4);
    NextAt(w, events, 5);
  }

  lemma {:induction false} PaidInOneWindow(w: World, p: TxId, today: Today) returns (paid: World)
    requires Sound(w) && p in w.intents && p < |w.bank.txs| && !Locked(w, p) && AsksPage(w.bank, p, 0)
    requires w.intents[p].status == Initiated && w.intents[p].expiresAt >= 0
    ensures var e, n := CancelBehindPayment(w, p, today), |w.requests|;
            paid == Happen(Happen(Happen(Happen(Happen(w, e[0]), e[1]), e[2]), e[3]), e[4])
    ensures paid.bank == Next(w.bank, OpVerify(p, true, 0, today)) && |w.requests| < |paid.requests|
        && p in paid.intents
    ensures var r := paid.requests[|w.requests|];
            !r.saved && r.tx == p && r.waiting.None? && r.Acts() && r.Outcome().status == Canceled
  {
    hide Sound, Next, AsksPage;
    var events := CancelBehindPayment(w, p, today);
    var asked := Happen(Happen(w, events[0]), events[1]);
    var confirmed := Happen(asked, events[2]);
    assert !Locked(confirmed, p) by {
      forall id | 0 <= id < |confirmed.requests| ensures !Locks(confirmed.requests[id], p) {
        if id < |w.requests| {
          assert !Locks(w.requests[id], p);
        }
      }
    }
    SameAmounts(w, p);
    var verifying := Happen(confirmed, events[3]);
    paid := Happen(verifying, events[4]);
  }

  lemma {:induction false} SameAmounts(w: World, p: TxId)
    requires Sound(w) && p in w.intents && p < |w.bank.txs|
    ensures w.intents[p].amount == w.bank.txs[p].amount
  {
    assert RowSound(w.bank, w.intents, p);
  }

  /** From any world in which a purchase can be paid for: the merchant is credited, and the intent ends as
      CANCELED. */
  lemma {:induction false} CanceledAfterPayment(w: World, p: TxId, today: Today)
    requires Sound(w) && p in w.intents && p < |w.bank.txs| && !Locked(w, p) && AsksPage(w.bank, p, 0)
    requires w.intents[p].status == Initiated && w.intents[p].expiresAt >= 0
    requires Step(w.bank, OpVerify(p, true, 0, today)).Ok?
    ensures var after := Unfold(w, CancelBehindPayment(w, p, today));
            && after.bank == Step(w.bank, OpVerify(p, true, 0, today)).value && Credits(after.bank, p) == 1
            && p in after.intents && after.intents[p].status == Canceled
  {
    hide Formed, Unfold, Settle, Locked, Credits;
    UnfoldSix(w, CancelBehindPayment(w, p, today));
    var paid := PaidInOneWindow(w, p, today);
    FormedRow(w.bank, p);
    AskedSettles(w.bank, p, true, 0, today);
    SettledSound(w.bank, w.intents, p, today);
  }
}
