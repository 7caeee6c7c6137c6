/** Which requests keep the transaction rows and the journal in the agreement the backfill relies on. */
module BackfillRuns {
  import opened Common
  import opened Sums
  import opened Ledger
  import opened Installments
  import opened Settlement
  import opened Bank
  import opened BankInvariant
  import opened CreditLines
  import opened MoneyMoves
  import opened Purchases
  import opened Repayments
  import opened Payouts
  import opened History
  import opened RoundTrip
  import opened Safety
  import opened Backfill
  import opened BackfillAgreement

  // ---- What else is known of keys and markers ----

  /** Keys of rows that belong to another row. */
  predicate IsChildKey(key: Key) {
    key.SupportFund? || key.CreditFund? || key.CreditFundReverse? || key.RepaymentSlice? || key.OverdueAbsorb?
        || key.QuitAbsorb?
  }

  /** A purchase that is, or was until it was refunded, completed. */
  predicate WasDone(txs: seq<Tx>, p: TxId)
    requires p < |txs|
  {
    txs[p].status == Completed || HasMarker(txs, p)
  }

  /** A row that stands for nothing: still PENDING, or dropped without ever having been completed. */
  predicate Undecided(txs: seq<Tx>, id: TxId)
    requires id < |txs|
  {
    || (txs[id].status == Awaiting && (txs[id].kind == Deposit || txs[id].kind == Purchase))
    || (IsPurchase(txs[id]) && txs[id].status == Reversed && !HasMarker(txs, id))
  }

  /** The text is what one of the slices of a write-off with this key is named. */
  predicate ReadsAsSlice(text: string, key: string) {
    text == key + Suffix(FeeSlice) || text == key + Suffix(PenaltySlice) || text == key + Suffix(UnblockSlice)
  }

  /** A slice that the script takes for one of the adjustment with this key. */
  predicate Absorbs(k: Key, key: string) {
    match k
    case OverdueAbsorb(text) => ReadsAsSlice(text, key)
    case QuitAbsorb(text) => ReadsAsSlice(text, key)
    case _ => false
  }

  predicate OwnsSlice(t: Tx, k: Key) {
    t.kind == Adjustment && t.key.Client? && Absorbs(k, t.key.key)
  }

  predicate HasOwner(txs: seq<Tx>, k: Key) {
    exists i :: 0 <= i < |txs| && OwnsSlice(txs[i], k)
  }

  /** Some slice already reads as one of this key's. */
  predicate Foreign(txs: seq<Tx>, key: string) {
    exists i :: 0 <= i < |txs| && Absorbs(txs[i].key, key)
  }

  /** A child row is completed from the start, and its key names a row that was completed with it. */
  predicate KeyKnown(txs: seq<Tx>, i: TxId)
    requires i < |txs|
  {
    (IsChildKey(txs[i].key) ==> txs[i].status == Completed && txs[i].kind != Purchase)
    && match txs[i].key
    case SupportFund(p) => p < |txs| && txs[p].kind == Purchase && WasDone(txs, p)
    case CreditFund(p) => p < |txs| && txs[p].kind == Purchase && WasDone(txs, p)
    case RepaymentSlice(r, _) => r < |txs| && txs[r].kind == Deposit && txs[r].status == Completed
    case CreditFundReverse(p) => p < |txs| && txs[p].kind == Purchase && HasMarker(txs, p)
    case OverdueAbsorb(text) => txs[i].to.Some? && HasOwner(txs, txs[i].key)
    case QuitAbsorb(text) => txs[i].to.Some? && HasOwner(txs, txs[i].key)
    case _ => true
  }

  predicate MarkerKnown(txs: seq<Tx>, i: TxId)
    requires i < |txs|
  {
    var t := txs[i];
    t.kind == Purchase && t.related.Some? ==>
      && t.status == Reversed
      && t.related.value < |txs| && txs[t.related.value].kind == Purchase && txs[t.related.value].status == Reversed
  }

  predicate RefsKnown(txs: seq<Tx>) {
    forall i :: 0 <= i < |txs| ==> KeyKnown(txs, i) && MarkerKnown(txs, i)
  }

  ghost predicate Rebuildable(s: State) {
    Formed(s) && RefsKnown(s.txs) && Agree(s)
  }

  /** Statuses only move on: PENDING rows are decided once, and only purchases change later. */
  predicate MovesOn(a: Tx, b: Tx) {
    && b.key == a.key && b.kind == a.kind && b.related == a.related && (a.to.Some? ==> b.to.Some?)
    && (a.status != Awaiting ==> b.status != Awaiting)
    && (a.status == Completed && a.kind != Purchase ==> b.status == Completed)
    && (a.kind == Purchase && a.related.Some? ==> b.status == a.status)
  }

  /** The refund a marker stands for is not taken back: a marker row is REVERSED, and its purchase stays so. */
  lemma {:induction false} MarkerStays(a: seq<Tx>, b: seq<Tx>, i: TxId)
    requires |a| <= |b| && i < |a| && MarkerKnown(a, i) && a[i].kind == Purchase && a[i].related.Some?
        && MovesOn(a[i], b[i])
    requires a[i].status == Reversed
    requires forall p :: 0 <= p < |a| && HasMarker(a, p) ==> HasMarker(b, p) && b[p].status == a[p].status
    requires forall k :: 0 <= k < |a| ==> MovesOn(a[k], b[k])
    ensures MarkerKnown(b, i)
  {
    assert HasMarker(a, a[i].related.value);
  }

  lemma {:induction false} OwnerStays(a: seq<Tx>, b: seq<Tx>, k: Key)
    requires |a| <= |b| && HasOwner(a, k) && forall i :: 0 <= i < |a| ==> MovesOn(a[i], b[i])
    ensures HasOwner(b, k)
  {
    var i :| 0 <= i < |a| && OwnsSlice(a[i], k);
    assert MovesOn(a[i], b[i]) && OwnsSlice(b[i], k);
  }

  lemma {:induction false} RefsStay(a: seq<Tx>, b: seq<Tx>)
    requires RefsKnown(a) && |a| <= |b|
    requires forall i :: 0 <= i < |a| ==> MovesOn(a[i], b[i])
    requires forall i :: |a| <= i < |b| ==> KeyKnown(b, i) && MarkerKnown(b, i)
    requires forall p :: 0 <= p < |a| && WasDone(a, p) ==> WasDone(b, p)
    requires forall p :: 0 <= p < |a| && HasMarker(a, p) ==> HasMarker(b, p) && b[p].status == a[p].status
    ensures RefsKnown(b)
  {
    forall i | 0 <= i < |a| ensures KeyKnown(b, i) && MarkerKnown(b, i) {
      assert KeyKnown(a, i) && MarkerKnown(a, i) && MovesOn(a[i], b[i]);
      if a[i].kind == Purchase && a[i].related.Some? {
        MarkerStays(a, b, i);
      }
      if HasOwner(a, a[i].key) {
        OwnerStays(a, b, a[i].key);
      }
    }
  }

  // ---- When a row is rebuilt as before ----

  /** The keys the script looks up for a row. */
  predicate Watches(t: Tx, id: TxId, key: Key) {
    match key
    case SupportFund(p) => p == id
    case CreditFund(p) => p == id
    case RepaymentSlice(r, _) => r == id
    case CreditFundReverse(p) => t.kind == Purchase && t.related == Some(p)
    case OverdueAbsorb(text) => OwnsSlice(t, key)
    case QuitAbsorb(text) => OwnsSlice(t, key)
    case _ => false
  }

  /** Wallets keep their type and link, and new ones come at the end. */
  predicate SameWallets(ws: seq<Wallet>, vs: seq<Wallet>) {
    |ws| <= |vs| && forall w :: 0 <= w < |ws| ==> vs[w].typ == ws[w].typ && vs[w].repository == ws[w].repository
  }

  /** What the script reads of a row itself. */
  predicate ReadsAlike(s: State, s': State, id: TxId)
    requires id < |s.txs| && id < |s'.txs|
  {
    var a, b := s.txs[id], s'.txs[id];
    && a == b.(status := a.status, expires := a.expires, settled := a.settled)
    && (a.kind == Purchase ==>
          (a.related.Some? ==> a.status == b.status) && WasCompleted(s, id) == WasCompleted(s', id))
    && (a.kind == Deposit ==> a.status == b.status)
  }

  predicate LooksUpAlike(s: State, s': State, key: Key) {
    && SiblingTo(s', key) == SiblingTo(s, key) && SiblingFrom(s', key) == SiblingFrom(s, key)
  }

  lemma {:induction false} HoldersAlike(s: State, s': State, w: WalletId)
    requires SameWallets(s.wallets, s'.wallets) && BackedOk(s.wallets) && w < |s.wallets|
    ensures w < |s'.wallets| && Own(s', w) == Own(s, w) && LedgerHolder(s', w) == LedgerHolder(s, w)
    ensures s'.wallets[w].repository == s.wallets[w].repository && s'.wallets[w].typ == s.wallets[w].typ
  {
    assert LinkOk(s.wallets, w);
  }

  lemma {:induction false} SlicesAlike(s: State, s': State, prefix: SplitPrefix)
    requires forall slice: Slice :: LooksUpAlike(s, s', SliceKey(prefix, slice))
    ensures SliceLegs(s', prefix) == SliceLegs(s, prefix)
  {
    assert LooksUpAlike(s, s', SliceKey(prefix, FeeSlice)) && LooksUpAlike(s, s', SliceKey(prefix, PenaltySlice));
    assert LooksUpAlike(s, s', SliceKey(prefix, UnblockSlice));
  }

  predicate SidesKnown(s: State, id: TxId)
    requires id < |s.txs|
  {
    InTable(s.txs[id].from, |s.wallets|) && InTable(s.txs[id].to, |s.wallets|)
  }

  lemma {:induction false} HandledAlike(s: State, s': State, id: TxId)
    requires BackedOk(s.wallets) && SameWallets(s.wallets, s'.wallets) && id < |s.txs| && id < |s'.txs|
    requires SidesKnown(s, id) && ReadsAlike(s, s', id)
    requires forall key: Key :: Watches(s.txs[id], id, key) ==> LooksUpAlike(s, s', key)
    ensures Handle(s', id) == Handle(s, id)
  {
    hide BackedOk, SameWallets, SiblingTo, SiblingFrom, SliceLegs, LedgerHolder, Own;
    var t := s.txs[id];
    if t.from.Some? {
      HoldersAlike(s, s', t.from.value);
    }
    if t.to.Some? {
      HoldersAlike(s, s', t.to.value);
    }
    match t.kind
    case Deposit =>
      SlicesAlike(s, s', OfRepayment(id));
      assert IsRepayment(s'.txs[id]) == IsRepayment(t);
    case Adjustment =>
      if t.key.Client? {
        SlicesAlike(s, s', OfOverdue(t.key.key));
        SlicesAlike(s, s', OfQuit(t.key.key));
      }
    case Purchase =>
      if t.related.Some? {
        assert LooksUpAlike(s, s', CreditFundReverse(t.related.value));
      }
      assert LooksUpAlike(s, s', SupportFund(id)) && LooksUpAlike(s, s', CreditFund(id));
    case _ =>
  }

  // ---- The frame of a request ----

  /** Rows outside `touched` keep what the script reads; new rows concern nobody outside it. */
  ghost predicate Grows(s: State, s': State, touched: set<TxId>) {
    && SameWallets(s.wallets, s'.wallets) && |s.txs| <= |s'.txs|
    && (forall i :: 0 <= i < |s.txs| && i !in touched ==>
          s'.txs[i] == s.txs[i].(expires := s'.txs[i].expires, settled := s'.txs[i].settled))
    && (forall i :: 0 <= i < |s.txs| && i in touched ==>
          MovesOn(s.txs[i], s'.txs[i]) && !IsChildKey(s.txs[i].key)
              && !(s.txs[i].kind == Purchase && s.txs[i].related.Some?))
    && (forall n, id :: |s.txs| <= n < |s'.txs| && 0 <= id < |s.txs| && id !in touched ==>
          !Watches(s.txs[id], id, s'.txs[n].key))
    && (forall n :: |s.txs| <= n < |s'.txs| && s'.txs[n].kind == Purchase && s'.txs[n].related.Some? ==>
          s'.txs[n].related.value in touched)
  }

  /** Nothing touched was refunded before, and what was completed still was. */
  predicate DoneKept(s: State, s': State, touched: set<TxId>)
    requires |s.txs| <= |s'.txs|
  {
    forall i :: 0 <= i < |s.txs| && i in touched ==> !HasMarker(s.txs, i) && (WasDone(s.txs, i) ==> WasDone(s'.txs, i))
  }

  lemma {:induction false} KeysGrow(s: State, s': State, touched: set<TxId>)
    requires Grows(s, s', touched)
    ensures |s.txs| <= |s'.txs| && forall i :: 0 <= i < |s.txs| ==>
        s'.txs[i].key == s.txs[i].key && MovesOn(s.txs[i], s'.txs[i])
  {
    forall i | 0 <= i < |s.txs| ensures s'.txs[i].key == s.txs[i].key && MovesOn(s.txs[i], s'.txs[i]) {
      if i !in touched {
        assert s'.txs[i] == s.txs[i].(expires := s'.txs[i].expires, settled := s'.txs[i].settled);
      }
    }
  }

  lemma {:induction false} SidesOf(wallets: nat, installments: nat, txs: seq<Tx>, id: TxId)
    requires RowsOk(wallets, installments, txs) && id < |txs|
    ensures InTable(txs[id].from, wallets) && InTable(txs[id].to, wallets)
  {
    assert RowOk(wallets, installments, txs, id);
  }

  lemma {:induction false} ChildRowKept(s: State, s': State, touched: set<TxId>, f: TxId)
    requires Grows(s, s', touched) && f < |s.txs| && IsChildKey(s.txs[f].key)
    ensures f < |s'.txs| && s'.txs[f].from == s.txs[f].from && s'.txs[f].to == s.txs[f].to
        && s'.txs[f].amount == s.txs[f].amount
    ensures SameWallets(s.wallets, s'.wallets)
  {
  }

  lemma {:induction false} StillAbsent(s: State, s': State, key: Key)
    requires |s.txs| <= |s'.txs| && FindKey(s.txs, key).None?
    requires forall i :: 0 <= i < |s.txs| ==> s'.txs[i].key == s.txs[i].key
    requires forall n :: |s.txs| <= n < |s'.txs| ==> s'.txs[n].key != key
    ensures FindKey(s'.txs, key).None?
  {
  }

  lemma {:induction false} LookupKept(s: State, s': State, touched: set<TxId>, key: Key)
    requires BackedOk(s.wallets) && RowsOk(|s.wallets|, |s.installments|, s.txs) && Grows(s, s', touched)
        && IsChildKey(key)
    requires forall n :: |s.txs| <= n < |s'.txs| ==> s'.txs[n].key != key
    ensures LooksUpAlike(s, s', key)
  {
    hide BackedOk, RowsOk, Grows, LedgerHolder, SameWallets, FindKey;
    KeysGrow(s, s', touched);
    if FindKey(s.txs, key).Some? {
      FindKeyGrown(s.txs, s'.txs, key);
      var f := FindKey(s.txs, key).value;
      SidesOf(|s.wallets|, |s.installments|, s.txs, f);
      ChildRowKept(s, s', touched, f);
      if s.txs[f].to.Some? {
        HoldersAlike(s, s', s.txs[f].to.value);
      }
      if s.txs[f].from.Some? {
        HoldersAlike(s, s', s.txs[f].from.value);
      }
    } else {
      StillAbsent(s, s', key);
    }
  }

  lemma {:induction false} MarkersKeptFor(s: State, s': State, touched: set<TxId>, id: TxId)
    requires Grows(s, s', touched) && id < |s.txs| && id !in touched
    ensures HasMarker(s'.txs, id) <==> HasMarker(s.txs, id)
  {
    if HasMarker(s.txs, id) {
      var m :| 0 <= m < |s.txs| && s.txs[m].kind == Purchase && s.txs[m].status == Reversed
          && s.txs[m].related == Some(id);
      assert m !in touched;
      assert s'.txs[m].kind == Purchase && s'.txs[m].status == Reversed && s'.txs[m].related == Some(id);
    }
    if HasMarker(s'.txs, id) {
      var m :| 0 <= m < |s'.txs| && s'.txs[m].kind == Purchase && s'.txs[m].status == Reversed
          && s'.txs[m].related == Some(id);
      assert m < |s.txs|;
      KeysGrow(s, s', touched);
      assert m !in touched;
    }
  }

  lemma {:induction false} UntouchedRebuilt(s: State, s': State, touched: set<TxId>, id: TxId)
    requires BackedOk(s.wallets) && RowsOk(|s.wallets|, |s.installments|, s.txs) && Grows(s, s', touched)
    requires id < |s.txs| && id !in touched
    ensures id < |s'.txs| && Rebuilt(s', id) == Rebuilt(s, id) && WasCompleted(s', id) == WasCompleted(s, id)
    ensures s'.txs[id] == s.txs[id].(expires := s'.txs[id].expires, settled := s'.txs[id].settled)
  {
    hide BackedOk, Handle, LooksUpAlike, AllAccepted;
    assert RowOk(|s.wallets|, |s.installments|, s.txs, id);
    MarkersKeptFor(s, s', touched, id);
    forall key: Key | Watches(s.txs[id], id, key) ensures LooksUpAlike(s, s', key) {
      LookupKept(s, s', touched, key);
    }
    HandledAlike(s, s', id);
  }

  lemma {:induction false} UntouchedAgrees(s: State, s': State, touched: set<TxId>, id: TxId)
    requires BackedOk(s.wallets) && RowsOk(|s.wallets|, |s.installments|, s.txs) && Grows(s, s', touched)
    requires id < |s.txs| && id !in touched && AgreesAt(s, id)
    requires MoneyEntries(s'.journal, id) == MoneyEntries(s.journal, id)
    ensures id < |s'.txs| && AgreesAt(s', id)
  {
    hide BackedOk, RowsOk, Grows, Rebuilt, MoneyEntries;
    UntouchedRebuilt(s, s', touched, id);
  }

  lemma {:induction false} DoneStays(s: State, s': State, touched: set<TxId>)
    requires Grows(s, s', touched) && DoneKept(s, s', touched)
    ensures forall p :: 0 <= p < |s.txs| && WasDone(s.txs, p) ==> WasDone(s'.txs, p)
    ensures forall p :: 0 <= p < |s.txs| && HasMarker(s.txs, p) ==>
        HasMarker(s'.txs, p) && s'.txs[p].status == s.txs[p].status
  {
    hide HasMarker;
    forall p | 0 <= p < |s.txs|
      ensures WasDone(s.txs, p) ==> WasDone(s'.txs, p)
      ensures HasMarker(s.txs, p) ==> HasMarker(s'.txs, p) && s'.txs[p].status == s.txs[p].status
    {
      if p !in touched {
        MarkersKeptFor(s, s', touched, p);
      }
    }
  }

  /** A request is in order if what it touched agrees afterwards and everyone else's entries are as before. */
  lemma {:induction false} GrowsAgrees(s: State, s': State, touched: set<TxId>)
    requires Formed(s) && RefsKnown(s.txs) && Agree(s) && Grows(s, s', touched) && TxsBelow(s'.journal, |s'.txs|)
    requires |s.txs| <= |s'.txs| && DoneKept(s, s', touched)
    requires forall id :: 0 <= id < |s.txs| && id !in touched ==>
        MoneyEntries(s'.journal, id) == MoneyEntries(s.journal, id)
    requires forall id :: 0 <= id < |s'.txs| && (id in touched || id >= |s.txs|) ==> AgreesAt(s', id)
    requires forall i :: |s.txs| <= i < |s'.txs| ==> KeyKnown(s'.txs, i) && MarkerKnown(s'.txs, i)
    ensures Agree(s') && RefsKnown(s'.txs)
  {
    hide Grows, AgreesAt, KeyKnown, MarkerKnown, MovesOn, MoneyEntries, WasDone, HasMarker, DoneKept;
    KeysGrow(s, s', touched);
    DoneStays(s, s', touched);
    RefsStay(s.txs, s'.txs);
    forall id | 0 <= id < |s'.txs| ensures AgreesAt(s', id) {
      if id < |s.txs| && id !in touched {
        UntouchedAgrees(s, s', touched, id);
      }
    }
  }

  // ---- One new row with its entries ----

  predicate EntriesFor(entries: seq<Entry>, id: TxId) {
    forall k :: 0 <= k < |entries| ==> entries[k].tx == id && MovesMoney(entries[k])
  }

  lemma {:induction false} NothingPosted(s: State, id: TxId)
    requires TxsBelow(s.journal, |s.txs|) && id >= |s.txs|
    ensures MoneyEntries(s.journal, id) == []
  {
    NoMoney(s.journal, id);
  }

  lemma {:induction false} PostedFor(j: Journal, entries: seq<Entry>, row: TxId, id: TxId)
    requires EntriesFor(entries, row)
    ensures MoneyEntries(j + entries, id) == MoneyEntries(j, id) + if id == row then entries else []
  {
    hide MovesMoney;
    MoneyConcat(j, entries, id);
    if id == row {
      AllMoney(entries, id);
    } else {
      NoMoney(entries, id);
    }
  }

  /** A row of its own, not a leg of another's, with a key nobody used. */
  predicate IsParent(s: State, t: Tx) {
    && !IsChildKey(t.key) && FindKey(s.txs, t.key).None? && !(t.kind == Purchase && t.related.Some?)
  }

  lemma {:induction false} NoSiblings(s: State, s': State, t: Tx, key: Key)
    requires RefsKnown(s.txs) && IsParent(s, t) && s'.txs == s.txs + [t] && Watches(t, |s.txs|, key)
    requires t.kind == Adjustment && t.key.Client? ==> !Foreign(s.txs, t.key.key)
    ensures SiblingTo(s', key) == [] && SiblingFrom(s', key) == []
  {
    forall i | 0 <= i < |s'.txs| ensures s'.txs[i].key != key {
      if i < |s.txs| {
        assert KeyKnown(s.txs, i);
      }
    }
  }

  lemma {:induction false} ParentGrows(s: State, s': State, t: Tx)
    requires IsParent(s, t) && s'.txs == s.txs + [t] && SameWallets(s.wallets, s'.wallets)
    ensures Grows(s, s', {}) && KeyKnown(s'.txs, |s.txs|) && MarkerKnown(s'.txs, |s.txs|)
  {
  }

  lemma {:induction false} RowWithEntries(s: State, s': State, t: Tx, entries: seq<Entry>)
    requires Rebuildable(s) && IsParent(s, t) && s'.txs == s.txs + [t] && SameWallets(s.wallets, s'.wallets)
    requires s'.journal == s.journal + entries && EntriesFor(entries, |s.txs|) && Rebuilt(s', |s.txs|) == entries
    requires t.kind == Purchase ==> t.status == Awaiting
    ensures Agree(s') && RefsKnown(s'.txs)
  {
    hide Formed, MovesMoney, Rebuilt, IsParent, Grows, MoneyEntries;
    var n := |s.txs|;
    ParentGrows(s, s', t);
    forall id | 0 <= id < |s'.txs|
      ensures MoneyEntries(s'.journal, id) == if id == n then entries else MoneyEntries(s.journal, id)
    {
      PostedFor(s.journal, entries, n, id);
      if id == n {
        NothingPosted(s, n);
        assert [] + entries == entries;
      } else {
        assert MoneyEntries(s.journal, id) + [] == MoneyEntries(s.journal, id);
      }
    }
    GrowsAgrees(s, s', {});
  }

  /** A row that moved nothing yet, or never moves real money. */
  lemma {:induction false} QuietRow(s: State, s': State, t: Tx)
    requires Rebuildable(s) && IsParent(s, t) && s'.txs == s.txs + [t] && SameWallets(s.wallets, s'.wallets)
    requires s'.journal == s.journal
    requires t.kind == Virtual || (t.status == Awaiting && (t.kind == Deposit || t.kind == Purchase))
    ensures Agree(s') && RefsKnown(s'.txs)
  {
    hide Formed, RefsKnown, Agree;
    assert s.journal + [] == s.journal;
    assert Handle(s', |s.txs|) == [];
    RowWithEntries(s, s', t, []);
  }

  lemma {:induction false} AgainstIsMoney(tx: TxId, h: Holder, delta: int, counter: AccountCode)
    ensures MovesMoney(Entry(tx, Against(h, delta, counter)))
  {
    assert Against(h, delta, counter)[0].wallet.Some?;
  }

  lemma {:induction false} PayCashEntries(s: State, tx: TxId, w: WalletId, amount: int, cash: AccountCode)
    requires w < |s.wallets| && amount > 0 && PayCash(s, tx, w, amount, cash).Ok?
    ensures var entries := CashEntry(s, tx, Some(w), -amount, cash) + MirrorEntry(s, tx, Some(w), -amount);
            && PayCash(s, tx, w, amount, cash) == Ok(s.(journal := s.journal + entries))
            && AllAccepted(entries) && EntriesFor(entries, tx)
  {
    hide Accepts, MovesMoney, Against;
    var holder := LedgerHolder(s, w).value;
    AgainstIsMoney(tx, holder, -amount, cash);
    AgainstIsMoney(tx, Own(s, w), -amount, RepositoryAllocations);
    var cashed, mirrored := CashEntry(s, tx, Some(w), -amount, cash), MirrorEntry(s, tx, Some(w), -amount);
    assert s.journal + cashed + mirrored == s.journal + (cashed + mirrored);
    if mirrored == [] {
      assert s.journal + cashed + [] == s.journal + cashed;
    }
  }

  lemma {:induction false} WithdrawAgrees(s: State, user: nat, w: WalletId, amount: int, cleared: bool, key: string)
    requires Rebuildable(s) && WithdrawFrom(s, user, w, amount, cleared, key).Ok?
    ensures var s' := WithdrawFrom(s, user, w, amount, cleared, key).value;
            Agree(s') && RefsKnown(s'.txs)
  {
    hide Formed, RefsKnown, Agree, PayCash, AllAccepted, CashEntry, MirrorEntry;
    WithdrawTables(s, user, w, amount, cleared, key);
    var t := Row(Withdraw, Completed, Some(w), None, amount, Client(key)).(cleared := cleared);
    var s1 := s.(txs := s.txs + [t]);
    var s' := WithdrawFrom(s, user, w, amount, cleared, key).value;
    PayCashEntries(s1, |s.txs|, w, amount, CashAccount(cleared));
    FormedTables(s);
    SameHandler(s1, s', |s.txs|);
    RowWithEntries(s, s', t, HandleWithdraw(s1, |s.txs|));
  }

  lemma {:induction false} SameLookups(s: State, s': State)
    requires s' == s.(journal := s'.journal)
    ensures forall key: Key :: SiblingTo(s', key) == SiblingTo(s, key) && SiblingFrom(s', key) == SiblingFrom(s, key)
    ensures forall w: WalletId :: w < |s.wallets| ==>
        LedgerHolder(s', w) == LedgerHolder(s, w) && Own(s', w) == Own(s, w)
  {
  }

  lemma {:induction false} SameSlices(s: State, s': State)
    requires s' == s.(journal := s'.journal)
    ensures forall prefix: SplitPrefix :: SliceLegs(s', prefix) == SliceLegs(s, prefix)
  {
    hide SiblingTo, SliceKey;
    SameLookups(s, s');
  }

  lemma {:induction false} SameDeposit(s: State, s': State, id: TxId)
    requires s' == s.(journal := s'.journal) && id < |s.txs|
    ensures HandleDeposit(s', id) == HandleDeposit(s, id)
  {
    hide SliceLegs, LedgerHolder, CashInLegs, Against;
    SameLookups(s, s');
    SameSlices(s, s');
  }

  lemma {:induction false} SameAdjustment(s: State, s': State, id: TxId)
    requires s' == s.(journal := s'.journal) && id < |s.txs|
    ensures HandleAdjustment(s', id) == HandleAdjustment(s, id)
  {
    hide SliceLegs, MultiLegs, Against;
    SameSlices(s, s');
  }

  lemma {:induction false} SamePurchase(s: State, s': State, id: TxId)
    requires s' == s.(journal := s'.journal) && id < |s.txs|
    ensures HandlePurchase(s', id) == HandlePurchase(s, id)
  {
    hide SiblingTo, SiblingFrom, LedgerHolder, Own, MultiLegs;
    SameLookups(s, s');
  }

  /** The script does not look at the journal. */
  lemma {:induction false} SameHandler(s: State, s': State, id: TxId)
    requires s' == s.(journal := s'.journal) && id < |s.txs|
    ensures Handle(s', id) == Handle(s, id)
  {
    hide LedgerHolder, Own, Against, WalletToWallet, HandlePurchase, HandleDeposit, HandleAdjustment;
    SameLookups(s, s');
    SamePurchase(s, s', id);
    SameDeposit(s, s', id);
    SameAdjustment(s, s', id);
  }

  lemma {:induction false} PayWalletEntries(s: State, tx: TxId, from: WalletId, to: WalletId, amount: int)
    requires from < |s.wallets| && to < |s.wallets| && amount > 0 && PayWallet(s, tx, from, to, amount).Ok?
    ensures LedgerHolder(s, from).Ok?
    ensures var entries := [Entry(tx, WalletToWallet(LedgerHolder(s, from).value, Own(s, to), amount))]
                           + MirrorEntry(s, tx, Some(from), -amount);
            && PayWallet(s, tx, from, to, amount) == Ok(s.(journal := s.journal + entries))
            && AllAccepted(entries) && EntriesFor(entries, tx)
  {
    hide Accepts, MovesMoney, Against;
    var moved := [Entry(tx, WalletToWallet(LedgerHolder(s, from).value, Own(s, to), amount))];
    WalletsAreMoney(tx, LedgerHolder(s, from).value, Own(s, to), amount);
    AgainstIsMoney(tx, Own(s, from), -amount, RepositoryAllocations);
    var mirrored := MirrorEntry(s, tx, Some(from), -amount);
    assert s.journal + moved + mirrored == s.journal + (moved + mirrored);
    if mirrored == [] {
      assert s.journal + moved + [] == s.journal + moved;
    }
  }

  lemma {:induction false} WalletsAreMoney(tx: TxId, source: Holder, target: Holder, amount: int)
    ensures MovesMoney(Entry(tx, WalletToWallet(source, target, amount)))
  {
    assert WalletToWallet(source, target, amount)[0].wallet.Some?;
  }

  lemma {:induction false} TransferAgrees(s: State, user: nat, from: WalletId, to: WalletId, amount: int, key: string)
    requires Rebuildable(s) && TransferTo(s, user, from, to, amount, key).Ok?
    ensures var s' := TransferTo(s, user, from, to, amount, key).value;
            Agree(s') && RefsKnown(s'.txs)
  {
    hide Formed, RefsKnown, Agree, PayWallet, AllAccepted, MirrorEntry, WalletToWallet, LedgerHolder, Own;
    TransferTables(s, user, from, to, amount, key);
    var t := Row(Transfer, Completed, Some(from), Some(to), amount, Client(key));
    var s1 := s.(txs := s.txs + [t]);
    var s' := TransferTo(s, user, from, to, amount, key).value;
    PayWalletEntries(s1, |s.txs|, from, to, amount);
    SameHandler(s1, s', |s.txs|);
    RowWithEntries(s, s', t, HandleTransfer(s1, |s.txs|));
  }

  /** A plain correction has no slices: their keys would name it. */
  lemma {:induction false} NoSlices(s: State, s': State, t: Tx, key: string)
    requires RefsKnown(s.txs) && IsParent(s, t) && t.kind == Adjustment && t.key == Client(key) && s'.txs == s.txs + [t]
    requires !Foreign(s.txs, key)
    ensures AbsorbedLegs(s', t) == []
  {
    hide SiblingTo, RefsKnown;
    forall k: Key | Watches(t, |s.txs|, k) ensures SiblingTo(s', k) == [] {
      NoSiblings(s, s', t, k);
    }
    assert forall slice: Slice :: SiblingTo(s', SliceKey(OfOverdue(key), slice)) == [];
    assert forall slice: Slice :: SiblingTo(s', SliceKey(OfQuit(key), slice)) == [];
  }

  lemma {:induction false} AdjustAgrees(s: State, w: WalletId, amount: int, key: string)
    requires Rebuildable(s) && Adjust(s, w, amount, key).Ok? && !Foreign(s.txs, key)
    ensures var s' := Adjust(s, w, amount, key).value;
            Agree(s') && RefsKnown(s'.txs)
  {
    hide Formed, RefsKnown, Agree, Accepts, MovesMoney, Against, AbsorbedLegs;
    var t := Row(Adjustment, Completed, if amount < 0 then Some(w) else None,
                 if amount >= 0 then Some(w) else None, Abs(amount), Client(key));
    var s1 := s.(txs := s.txs + [t]);
    var s' := Adjust(s, w, amount, key).value;
    NoSlices(s, s1, t, key);
    AgainstIsMoney(|s.txs|, Own(s, w), amount, LedgerAdjustments);
    SameHandler(s1, s', |s.txs|);
    RowWithEntries(s, s', t, [Entry(|s.txs|, Against(Own(s, w), amount, LedgerAdjustments))]);
  }

  // ---- Requests the script does not see ----

  /** Wallet flags and ceilings, installments, splits: nothing of it is read. */
  lemma {:induction false} NothingRead(s: State, s': State)
    requires Rebuildable(s) && s'.txs == s.txs && s'.journal == s.journal && SameWallets(s.wallets, s'.wallets)
    ensures Agree(s') && RefsKnown(s'.txs)
  {
    hide Formed, MoneyEntries;
    GrowsAgrees(s, s', {});
  }

  lemma {:induction false} UndecidedIsEmpty(s: State, id: TxId)
    requires RefsKnown(s.txs) && Agree(s) && id < |s.txs| && Undecided(s.txs, id)
    ensures Handle(s, id) == [] && MoneyEntries(s.journal, id) == [] && !HasMarker(s.txs, id)
  {
    hide MoneyEntries, AllAccepted;
    assert AgreesAt(s, id);
    NoMarkerUndecided(s.txs, id);
  }

  lemma {:induction false} NoMarkerUndecided(txs: seq<Tx>, id: TxId)
    requires RefsKnown(txs) && id < |txs| && Undecided(txs, id)
    ensures !HasMarker(txs, id)
  {
    forall m | 0 <= m < |txs| ensures !(txs[m].kind == Purchase && txs[m].related == Some(id)) {
      assert MarkerKnown(txs, m);
    }
  }

  /** A PENDING row that is dropped, or given a wallet or a longer life, still stands for nothing. */
  lemma {:induction false} StillEmpty(s: State, s': State, id: TxId)
    requires Rebuildable(s) && id < |s.txs| && s.txs[id].status == Awaiting
    requires s.txs[id].kind == Deposit || IsPurchase(s.txs[id])
    requires |s'.txs| == |s.txs| && s' == s.(txs := s.txs[id := s'.txs[id]])
    requires MovesOn(s.txs[id], s'.txs[id]) && s'.txs[id].status != Completed
    ensures Agree(s') && RefsKnown(s'.txs)
  {
    hide Formed, MoneyEntries, AllAccepted;
    UndecidedIsEmpty(s, id);
    assert KeyKnown(s.txs, id);
    assert forall m :: 0 <= m < |s.txs| ==> s'.txs[m].kind == s.txs[m].kind && s'.txs[m].related == s.txs[m].related;
    assert forall m :: 0 <= m < |s.txs| && m != id ==> s'.txs[m].status == s.txs[m].status;
    assert Handle(s', id) == [];
    GrowsAgrees(s, s', {id});
  }

  // ---- Completing a purchase ----

  function FundingRows(s: State, p: TxId, support: Option<Funding>): seq<Tx>
    requires Ready(s, p, support)
  {
    var from, rest := s.txs[p].from.value, Remainder(s, p, support);
    (if support.Some? then [SupportRow(p, from, support.value)] else [])
    + if DrawsOnLine(s, from, rest) then [FundRow(s, p, from, rest), DrawRow(p, from, rest)] else []
  }

  /** The draw's entry tracks the debt; it touches no balance. */
  function TrackedDraw(s: State, p: TxId, support: Option<Funding>): seq<Entry>
    requires Ready(s, p, support)
  {
    var from, rest := s.txs[p].from.value, Remainder(s, p, support);
    if DrawsOnLine(s, from, rest) then [Entry(p, ReceivableLegs(Own(s, from), rest))] else []
  }

  lemma {:induction false} SettleAppends(s: State, p: TxId, support: Option<Funding>, today: Date)
    requires Formed(s) && Ready(s, p, support) && OnCalendar(today) && Settle(s, p, support, today).Ok?
    ensures BackingExists(s, s.txs[p].from.value) && Accepts(PurchaseLegs(s, p, support))
    ensures var s' := Settle(s, p, support, today).value;
            && s'.txs == s.txs[p := s.txs[p].(status := Completed)] + FundingRows(s, p, support)
            && s'.journal == s.journal + TrackedDraw(s, p, support) + [Entry(p, PurchaseLegs(s, p, support))]
            && SameWallets(s.wallets, s'.wallets)
  {
    hide Formed, Settle, FundPurchase, ReceivableLegs, PurchaseLegs, Accepts, IsFunding, FundingRows, TrackedDraw,
      SameWallets;
    var s2 := SettleUnfolds(s, p, support, today);
    FormedTables(s);
    FundingTables(s, s2, p, support, today);
    FundingAppends(s, s2, p, support, today);
    UpdateInPrefix(s.txs, FundingRows(s, p, support), p, Completed);
  }

  lemma {:induction false} FundingAppends(s: State, s2: State, p: TxId, support: Option<Funding>, today: Date)
    requires Ready(s, p, support) && IsFunding(s, s2, p, support, today)
    ensures s2.txs == s.txs + FundingRows(s, p, support) && s2.journal == s.journal + TrackedDraw(s, p, support)
    ensures SameWallets(s.wallets, s2.wallets)
  {
    hide ReceivableLegs, Schedule;
    assert s.journal + [] == s.journal;
  }

  lemma {:induction false} UpdateInPrefix(txs: seq<Tx>, more: seq<Tx>, p: TxId, status: TxStatus)
    requires p < |txs|
    ensures (txs + more)[p := (txs + more)[p].(status := status)] == txs[p := txs[p].(status := status)] + more
  {
  }

  lemma {:induction false} TrackingIsNoMoney(tx: TxId, h: Holder, delta: int)
    ensures !MovesMoney(Entry(tx, ReceivableLegs(h, delta)))
  {
  }

  lemma {:induction false} MultiIsMoney(tx: TxId, debits: seq<Movement>, credits: seq<Movement>)
    requires |debits| > 0 && debits[0].amount > 0
    ensures MovesMoney(Entry(tx, MultiLegs(debits, credits)))
  {
    FirstMovementLeg(debits, -1);
    assert MultiLegs(debits, credits)[0] == MovementLegs(debits, -1)[0];
  }

  lemma {:induction false} AbsentBefore(s: State, p: TxId)
    requires RefsKnown(s.txs) && p < |s.txs| && Undecided(s.txs, p)
    ensures FindKey(s.txs, SupportFund(p)).None? && FindKey(s.txs, CreditFund(p)).None?
    ensures forall slice: Slice :: FindKey(s.txs, RepaymentSlice(p, slice)).None?
  {
    NoMarkerUndecided(s.txs, p);
    forall i | 0 <= i < |s.txs|
      ensures s.txs[i].key != SupportFund(p) && s.txs[i].key != CreditFund(p)
      ensures forall slice: Slice :: s.txs[i].key != RepaymentSlice(p, slice)
    {
      assert KeyKnown(s.txs, i);
    }
  }

  /** The funding rows are found again, in the order in which the live entry debited them. */
  lemma {:induction false} DebitsFound(s: State, s': State, p: TxId, support: Option<Funding>)
    requires BackedOk(s.wallets) && Ready(s, p, support) && BackingExists(s, s.txs[p].from.value)
    requires FindKey(s.txs, SupportFund(p)).None? && FindKey(s.txs, CreditFund(p)).None?
    requires s'.txs == s.txs[p := s.txs[p].(status := Completed)] + FundingRows(s, p, support)
    requires SameWallets(s.wallets, s'.wallets)
    ensures LedgerHolder(s', s.txs[p].from.value).Ok?
    ensures PurchaseDebits(s', p) == FundingLegs(s, s.txs[p].from.value, s.txs[p].amount, support)
  {
    hide BackedOk, LinkOk, FindKey, SameWallets, LedgerHolder;
    var from, rest := s.txs[p].from.value, Remainder(s, p, support);
    var done := s.txs[p := s.txs[p].(status := Completed)];
    LinkFacts(s.wallets, from);
    BackedAreLinked(s.wallets);
    LedgerHolderFound(s, from);
    HoldersAlike(s, s', from);
    if support.Some? {
      HoldersAlike(s, s', support.value.wallet);
      FindKeyIs(s'.txs, SupportFund(p), |s.txs|);
    } else {
      StillAbsent(s, s', SupportFund(p));
    }
    if DrawsOnLine(s, from, rest) {
      HoldersAlike(s, s', s.wallets[from].repository.value);
      FindKeyIs(s'.txs, CreditFund(p), |s.txs| + if support.Some? then 1 else 0);
    } else {
      StillAbsent(s, s', CreditFund(p));
    }
  }

  lemma {:induction false} LinkFacts(ws: seq<Wallet>, w: WalletId)
    requires BackedOk(ws) && w < |ws|
    ensures ws[w].repository.Some? ==> ws[w].typ.code == CreditLine && ws[w].repository.value < |ws|
                                       && ws[ws[w].repository.value].repository.None?
  {
    assert LinkOk(ws, w);
  }

  lemma {:induction false} FundingRowsGrow(s: State, s': State, p: TxId, support: Option<Funding>)
    requires Ready(s, p, support) && SameWallets(s.wallets, s'.wallets)
    requires !IsChildKey(s.txs[p].key)
        && s'.txs == s.txs[p := s.txs[p].(status := Completed)] + FundingRows(s, p, support)
    ensures Grows(s, s', {p})
    ensures forall i :: |s.txs| <= i < |s'.txs| ==> KeyKnown(s'.txs, i) && MarkerKnown(s'.txs, i) && Skipped(s'.txs[i])
  {
  }

  /** A request that posted `tracked` entries and then `posted` for one row. */
  lemma {:induction false} TouchedEntries(j: Journal, tracked: seq<Entry>, posted: Entry, row: TxId, id: TxId)
    requires forall k :: 0 <= k < |tracked| ==> !MovesMoney(tracked[k])
    requires posted.tx == row && MovesMoney(posted)
    ensures MoneyEntries(j + tracked + [posted], id) == MoneyEntries(j, id) + if id == row then [posted] else []
  {
    hide MovesMoney;
    MoneyConcat(j, tracked, id);
    NoMoney(tracked, id);
    assert MoneyEntries(j, id) + [] == MoneyEntries(j, id);
    MoneySnoc(j + tracked, posted, id);
  }

  lemma {:induction false} SettleAgrees(s: State, p: TxId, support: Option<Funding>, today: Date)
    requires Rebuildable(s) && Ready(s, p, support) && OnCalendar(today) && Settle(s, p, support, today).Ok?
    requires Undecided(s.txs, p)
    ensures var s' := Settle(s, p, support, today).value;
            Agree(s') && RefsKnown(s'.txs)
  {
    hide Formed, Settle, FundingRows, PurchaseLegs, Accepts, MovesMoney, Grows, MoneyEntries, RefsKnown, ReceivableLegs,
      Rebuilt, Skipped, KeyKnown, MarkerKnown;
    var s' := Settle(s, p, support, today).value;
    SettleAppends(s, p, support, today);
    var tracked, posted := TrackedDraw(s, p, support), Entry(p, PurchaseLegs(s, p, support));
    FormedTables(s);
    NotAChild(s, p);
    UndecidedIsEmpty(s, p);
    FundingRowsGrow(s, s', p, support);
    PurchaseIsMoney(s, p, support);
    TrackingIsNoMoney(p, Own(s, s.txs[p].from.value), Remainder(s, p, support));
    forall id: TxId ensures MoneyEntries(s'.journal, id) == MoneyEntries(s.journal, id)
        + if id == p then [posted] else [] {
      TouchedEntries(s.journal, tracked, posted, p, id);
    }
    AbsentBefore(s, p);
    PurchaseRebuilt(s, s', p, support);
    forall id | |s.txs| <= id < |s'.txs| ensures AgreesAt(s', id) {
      NothingPosted(s, id);
      ChildIsSkipped(s', id);
    }
    GrowsAgrees(s, s', {p});
  }

  lemma {:induction false} ChildIsSkipped(s: State, id: TxId)
    requires id < |s.txs| && Skipped(s.txs[id])
    ensures Rebuilt(s, id) == []
  {
  }

  lemma {:induction false} NotAChild(s: State, id: TxId)
    requires RefsKnown(s.txs) && id < |s.txs| && (s.txs[id].status == Awaiting || s.txs[id].kind == Purchase)
    ensures !IsChildKey(s.txs[id].key) && !IsChildLeg(s.txs[id].key)
  {
    assert KeyKnown(s.txs, id);
  }

  lemma {:induction false} PurchaseIsMoney(s: State, p: TxId, support: Option<Funding>)
    requires Ready(s, p, support) && BackingExists(s, s.txs[p].from.value)
    ensures MovesMoney(Entry(p, PurchaseLegs(s, p, support)))
  {
    hide MovesMoney, MultiLegs;
    var debits := FundingLegs(s, s.txs[p].from.value, s.txs[p].amount, support);
    MultiIsMoney(p, debits, [Movement(Own(s, s.txs[p].to.value), s.txs[p].amount)]);
  }

  /** The completed purchase is rebuilt into the entry that was posted for it. */
  lemma {:induction false} PurchaseRebuilt(s: State, s': State, p: TxId, support: Option<Funding>)
    requires BackedOk(s.wallets) && RefsKnown(s.txs) && Ready(s, p, support)
    requires FindKey(s.txs, SupportFund(p)).None? && FindKey(s.txs, CreditFund(p)).None?
    requires BackingExists(s, s.txs[p].from.value) && Accepts(PurchaseLegs(s, p, support))
    requires s'.txs == s.txs[p := s.txs[p].(status := Completed)] + FundingRows(s, p, support)
    requires SameWallets(s.wallets, s'.wallets)
    ensures Rebuilt(s', p) == [Entry(p, PurchaseLegs(s, p, support))]
  {
    hide BackedOk, Accepts, FundingRows, RefsKnown, FundingLegs, PurchaseDebits, LedgerHolder, MultiLegs;
    NotAChild(s, p);
    DebitsFound(s, s', p, support);
    HoldersAlike(s, s', s.txs[p].to.value);
    HoldersAlike(s, s', s.txs[p].from.value);
    assert HandlePurchase(s', p) == [Entry(p, PurchaseLegs(s, p, support))];
  }

  // ---- Money from the gateway ----

  /** A PENDING row that is completed with entries of its own. */
  lemma {:induction false} RowCompleted(s: State, s': State, id: TxId, entries: seq<Entry>)
    requires Rebuildable(s) && id < |s.txs| && s.txs[id].status == Awaiting && s.txs[id].kind == Deposit
    requires |s'.txs| == |s.txs| && s'.txs == s.txs[id := s'.txs[id]] && MovesOn(s.txs[id], s'.txs[id])
    requires SameWallets(s.wallets, s'.wallets) && s'.journal == s.journal + entries && EntriesFor(entries, id)
    requires Rebuilt(s', id) == entries
    ensures Agree(s') && RefsKnown(s'.txs)
  {
    hide Formed, MoneyEntries, Rebuilt, MovesMoney, Handle;
    UndecidedIsEmpty(s, id);
    NotAChild(s, id);
    forall k: TxId ensures MoneyEntries(s'.journal, k) == MoneyEntries(s.journal, k) + if k == id then entries else [] {
      PostedFor(s.journal, entries, id, k);
    }
    assert [] + entries == entries;
    forall k | 0 <= k < |s.txs| && k != id ensures MoneyEntries(s'.journal, k) == MoneyEntries(s.journal, k) {
      assert MoneyEntries(s.journal, k) + [] == MoneyEntries(s.journal, k);
    }
    GrowsAgrees(s, s', {id});
  }

  lemma {:induction false} PlainDepositAgrees(s: State, t: TxId)
    requires Rebuildable(s) && t < |s.txs| && s.txs[t].kind == Deposit && s.txs[t].status == Awaiting
    requires !IsRepayment(s.txs[t]) && s.txs[t].completes.None? && ReceiveMoney(s, t).Ok?
    requires s.txs[t].to.Some? && s.txs[t].to.value < |s.wallets| ==> s.wallets[s.txs[t].to.value].repository.None?
    ensures var s' := ReceiveMoney(s, t).value;
            Agree(s') && RefsKnown(s'.txs)
  {
    hide Formed, Accepts, MovesMoney, Against, RefsKnown, Agree, IsChildLeg;
    var w, s' := s.txs[t].to.value, ReceiveMoney(s, t).value;
    NotAChild(s, t);
    AgainstIsMoney(t, Own(s, w), s.txs[t].amount, BankCash);
    var entry := Entry(t, Against(Own(s, w), s.txs[t].amount, BankCash));
    assert HandleDeposit(s', t) == [entry];
    RowCompleted(s, s', t, [entry]);
  }

  lemma {:induction false} LandTopUpAgrees(s: State, t: TxId, user: nat, currency: CurrencyId)
    requires Rebuildable(s) && t < |s.txs| && s.txs[t].completes.Some? && s.txs[t].kind == Deposit
    requires s.txs[t].status != Reversed && LandTopUp(s, t, user, currency).Ok?
    ensures var s1 := LandTopUp(s, t, user, currency).value.0;
            Agree(s1) && RefsKnown(s1.txs)
  {
    hide Formed, Accepts, MovesMoney, Against, RefsKnown, Agree, SupportWalletFor, IsChildLeg;
    SupportGrows(s, user, currency);
    var (s0, support) := SupportWalletFor(s, user, currency).value;
    if s.txs[t].status == Completed {
      NothingRead(s, s0);
    } else {
      var s1 := LandTopUp(s, t, user, currency).value.0;
      NotAChild(s, t);
      FormedTables(s0);
      LinkFacts(s0.wallets, support);
      var entry := Entry(t, Against(Own(s0, support), s.txs[t].amount, BankCash));
      AgainstIsMoney(t, Own(s0, support), s.txs[t].amount, BankCash);
      assert HandleDeposit(s1, t) == [entry];
      RowCompleted(s, s1, t, [entry]);
    }
  }

  // ---- Slices found again ----

  function SliceLeg(s: State, part: Part): seq<Movement> {
    if OpenTarget(s.wallets, part) then [Movement(Own(s, part.target.value), part.amount)] else []
  }

  function LegsOf(s: State, parts: seq<Part>): seq<Movement> {
    if |parts| == 0 then [] else LegsOf(s, parts[..|parts| - 1]) + SliceLeg(s, parts[|parts| - 1])
  }

  function LegFor(s: State, parts: seq<Part>, slice: Slice): seq<Movement> {
    if |parts| == 0 then []
    else if parts[|parts| - 1].slice == slice then SliceLeg(s, parts[|parts| - 1])
    else LegFor(s, parts[..|parts| - 1], slice)
  }

  predicate SliceRows(txs: seq<Tx>, n: nat, prefix: SplitPrefix) {
    forall i :: n <= i < |txs| ==>
      && (exists slice: Slice :: txs[i].key == SliceKey(prefix, slice))
      && txs[i].status == Completed && (txs[i].kind == Transfer || txs[i].kind == Deposit) && txs[i].to.Some?
  }

  predicate NoSliceYet(txs: seq<Tx>, prefix: SplitPrefix, slice: Slice) {
    FindKey(txs, SliceKey(prefix, slice)).None?
  }

  /** The slices of one write-off or repayment have keys of their own. */
  lemma {:induction false} SliceKeysDiffer(prefix: SplitPrefix)
    ensures forall x: Slice, y: Slice :: x != y ==> SliceKey(prefix, x) != SliceKey(prefix, y)
  {
    forall x: Slice, y: Slice | x != y ensures SliceKey(prefix, x) != SliceKey(prefix, y) {
      SliceKeyDiffers(prefix, x, y);
    }
  }

  lemma {:induction false} SliceKeyDiffers(prefix: SplitPrefix, x: Slice, y: Slice)
    requires x != y
    ensures SliceKey(prefix, x) != SliceKey(prefix, y)
  {
    assert |Suffix(x)| != |Suffix(y)|;
    if !prefix.OfRepayment? {
      assert |prefix.key + Suffix(x)| != |prefix.key + Suffix(y)|;
    }
  }

  /** One more slice: its row is the one the script will find under its key. */
  lemma {:induction false} SliceFound(r: Routed, s: State, main: WalletId, part: Part, transfer: bool,
      prefix: SplitPrefix)
    requires r.state == s.(txs := r.state.txs) && s.txs <= r.state.txs
        && RouteSlice(r, main, part, transfer, prefix).Ok?
    requires SliceRows(r.state.txs, |s.txs|, prefix)
    ensures SliceLeg(s, part) != [] ==> NoSliceYet(r.state.txs, prefix, part.slice)
    ensures var after := RouteSlice(r, main, part, transfer, prefix).value;
            && after.legs == r.legs + SliceLeg(s, part) && SliceRows(after.state.txs, |s.txs|, prefix)
            && after.state == s.(txs := after.state.txs) && s.txs <= after.state.txs
            && SiblingTo(after.state, SliceKey(prefix, part.slice))
               == (if SliceLeg(s, part) == [] then SiblingTo(r.state, SliceKey(prefix, part.slice))
                   else SliceLeg(s, part))
            && forall slice: Slice :: slice != part.slice ==>
                 SiblingTo(after.state, SliceKey(prefix, slice)) == SiblingTo(r.state, SliceKey(prefix, slice))
  {
    hide FindKey, SliceKey;
    SliceKeysDiffer(prefix);
    if OpenTarget(s.wallets, part) {
      var row := Row(if transfer then Transfer else Deposit, Completed, if transfer then Some(main) else None,
                     part.target, part.amount, SliceKey(prefix, part.slice));
      forall slice: Slice
        ensures FindKey(r.state.txs + [row], SliceKey(prefix, slice))
             == if slice == part.slice then Some(|r.state.txs|) else FindKey(r.state.txs, SliceKey(prefix, slice))
      {
        FindKeySnoc(r.state.txs, row, SliceKey(prefix, slice));
      }
    }
  }

  predicate DistinctSlices(parts: seq<Part>) {
    forall i, j :: 0 <= i < j < |parts| ==> parts[i].slice != parts[j].slice
  }

  lemma {:induction false} SlicesFound(s: State, main: WalletId, parts: seq<Part>, transfer: bool, prefix: SplitPrefix)
    requires Route(s, main, parts, transfer, prefix).Ok? && DistinctSlices(parts)
    ensures var r := Route(s, main, parts, transfer, prefix).value;
            && r.state == s.(txs := r.state.txs) && s.txs <= r.state.txs && SliceRows(r.state.txs, |s.txs|, prefix)
            && r.legs == LegsOf(s, parts)
            && (forall slice: Slice :: SiblingTo(r.state, SliceKey(prefix, slice))
                  == if LegFor(s, parts, slice) == [] then SiblingTo(s, SliceKey(prefix, slice))
                      else LegFor(s, parts, slice))
            && (forall slice: Slice :: LegFor(s, parts, slice) != [] ==> NoSliceYet(s.txs, prefix, slice))
            && forall slice: Slice :: LegFor(s, parts, slice) == [] && NoSliceYet(s.txs, prefix, slice) ==>
                 NoSliceYet(r.state.txs, prefix, slice)
  {
    hide RouteSlice, SiblingTo, SliceLeg, NoSliceYet, SliceKey;
    if |parts| > 0 {
      hide SliceRows;
      var init, part := parts[..|parts| - 1], parts[|parts| - 1];
      SlicesFound(s, main, init, transfer, prefix);
      var r := Route(s, main, init, transfer, prefix).value;
      NotAmong(s, init, part.slice);
      SliceFound(r, s, main, part, transfer, prefix);
      LegForLast(s, parts);
      OthersStillAbsent(r, main, part, transfer, prefix);
      if SliceLeg(s, part) == [] {
        UnroutedStillAbsent(s, r, main, part, transfer, prefix);
      } else {
        AbsentBeforeRoute(s, r.state, prefix, part.slice);
      }
    }
  }

  lemma {:induction false} NotAmong(s: State, parts: seq<Part>, slice: Slice)
    requires forall i :: 0 <= i < |parts| ==> parts[i].slice != slice
    ensures LegFor(s, parts, slice) == []
  {
    if |parts| > 0 {
      NotAmong(s, parts[..|parts| - 1], slice);
    }
  }

  lemma {:induction false} UnroutedStillAbsent(s: State, r: Routed, main: WalletId, part: Part, transfer: bool,
      prefix: SplitPrefix)
    requires r.state == s.(txs := r.state.txs) && RouteSlice(r, main, part, transfer, prefix).Ok?
        && SliceLeg(s, part) == []
    ensures RouteSlice(r, main, part, transfer, prefix).value.state == r.state
  {
  }

  lemma {:induction false} AbsentBeforeRoute(s: State, after: State, prefix: SplitPrefix, slice: Slice)
    requires s.txs <= after.txs && NoSliceYet(after.txs, prefix, slice)
    ensures NoSliceYet(s.txs, prefix, slice)
  {
    KeyUnused(s.txs, after.txs, SliceKey(prefix, slice));
  }

  /** Where no slice of the name was there before, the routed ones are all that is found. */
  lemma {:induction false} OnlyRouted(s: State, after: State, parts: seq<Part>, prefix: SplitPrefix)
    requires forall slice: Slice :: NoSliceYet(s.txs, prefix, slice)
    requires forall slice: Slice :: SiblingTo(after, SliceKey(prefix, slice))
               == if LegFor(s, parts, slice) == [] then SiblingTo(s, SliceKey(prefix, slice))
                   else LegFor(s, parts, slice)
    ensures forall slice: Slice :: SiblingTo(after, SliceKey(prefix, slice)) == LegFor(s, parts, slice)
  {
    hide LegFor, SliceKey, FindKey;
    forall slice: Slice ensures SiblingTo(after, SliceKey(prefix, slice)) == LegFor(s, parts, slice) {
      assert NoSliceYet(s.txs, prefix, slice);
      AbsentIsNothing(s, SliceKey(prefix, slice));
    }
  }

  lemma {:induction false} LegForLast(s: State, parts: seq<Part>)
    requires |parts| > 0
    ensures forall slice: Slice :: LegFor(s, parts, slice)
              == if slice == parts[|parts| - 1].slice then SliceLeg(s, parts[|parts| - 1])
                 else LegFor(s, parts[..|parts| - 1], slice)
  {
  }

  lemma {:induction false} OthersStillAbsent(r: Routed, main: WalletId, part: Part, transfer: bool, prefix: SplitPrefix)
    requires RouteSlice(r, main, part, transfer, prefix).Ok?
    ensures forall slice: Slice :: slice != part.slice && NoSliceYet(r.state.txs, prefix, slice) ==>
              NoSliceYet(RouteSlice(r, main, part, transfer, prefix).value.state.txs, prefix, slice)
  {
    hide FindKey, SliceKey;
    SliceKeysDiffer(prefix);
    forall slice: Slice | slice != part.slice && NoSliceYet(r.state.txs, prefix, slice)
      ensures NoSliceYet(RouteSlice(r, main, part, transfer, prefix).value.state.txs, prefix, slice)
    {
      var row := Row(if transfer then Transfer else Deposit, Completed, if transfer then Some(main) else None,
                     part.target, part.amount, SliceKey(prefix, part.slice));
      FindKeySnoc(r.state.txs, row, SliceKey(prefix, slice));
    }
  }

  /** The script reads the slices back in the order in which they were routed. */
  lemma {:induction false} SlicesInOrder(s: State, after: State, terms: Terms, fee: int, penalty: int, unblockFee: int,
      prefix: SplitPrefix)
    requires var parts := Parts(terms, fee, penalty, unblockFee);
             forall slice: Slice :: SiblingTo(after, SliceKey(prefix, slice)) == LegFor(s, parts, slice)
    ensures SliceLegs(after, prefix) == LegsOf(s, Parts(terms, fee, penalty, unblockFee))
    ensures DistinctSlices(Parts(terms, fee, penalty, unblockFee))
  {
    hide SliceLeg, SiblingTo, SliceKey;
    var parts := Parts(terms, fee, penalty, unblockFee);
    var two := [parts[0], parts[1]];
    assert parts[..2] == two && two[..1] == [parts[0]] && [parts[0]][..0] == [];
    LegForLast(s, parts);
    LegForLast(s, two);
    LegForLast(s, [parts[0]]);
    assert LegsOf(s, [parts[0]]) == [] + SliceLeg(s, parts[0]);
  }

  // ---- Repayments ----

  lemma {:induction false} CashInIsMoney(tx: TxId, currency: CurrencyId, total: int, credits: seq<Movement>)
    requires |credits| > 0 && credits[0].amount > 0
    ensures MovesMoney(Entry(tx, CashInLegs(BankCash, currency, total, credits)))
  {
    FirstMovementLeg(credits, 1);
    assert CashInLegs(BankCash, currency, total, credits)[1] == MovementLegs(credits, 1)[0];
  }

  lemma {:induction false} MovedIsMovement(ms: seq<Movement>)
    ensures Sum(ms, MovementAmount()) == Sum(ms, MovedAmount())
  {
    SumSame(ms, ms, MovementAmount(), MovedAmount());
  }

  /** A verified charge is rebuilt from its shrunk row and its slices into the very entry that was posted. */
  lemma {:induction false} ChargeRebuilt(s: State, s': State, t: TxId, r: Routed, amount: int)
    requires t < |s.txs| && IsRepayment(s.txs[t]) && s.txs[t].completes.None? && s.txs[t].kind == Deposit
    requires s.txs[t].to.Some? && s.txs[t].to.value < |s.wallets| && !IsChildLeg(s.txs[t].key)
    requires s.txs <= r.state.txs && s' == s.(txs := r.state.txs[t := s.txs[t].(amount := amount, status := Completed)],
                                              journal := s'.journal)
    requires SliceLegs(s', OfRepayment(t)) == r.legs
    requires s.txs[t].amount == amount + Sum(r.legs, MovedAmount())
    requires Accepts(CashInLegs(BankCash, s.wallets[s.txs[t].to.value].typ.currency, s.txs[t].amount,
                                [Movement(Own(s, s.txs[t].to.value), amount)] + r.legs))
    ensures Rebuilt(s', t) == [Entry(t, CashInLegs(BankCash, s.wallets[s.txs[t].to.value].typ.currency, s.txs[t].amount,
                                                   [Movement(Own(s, s.txs[t].to.value), amount)] + r.legs))]
  {
    hide Accepts, SliceLegs, CashInLegs;
    var own := Movement(Own(s, s.txs[t].to.value), amount);
    FirstMoved(own, r.legs, MovementAmount());
    MovedIsMovement(r.legs);
    assert HandleDeposit(s', t)
        == [Entry(t, CashInLegs(BankCash, s.wallets[s.txs[t].to.value].typ.currency, s.txs[t].amount,
                                                        [own] + r.legs))];
  }

  /** Changing one row's amount and status leaves what is found under another key. */
  lemma {:induction false} RowChangeKeepsSiblings(s: State, s': State, t: TxId, key: Key)
    requires t < |s.txs| && |s'.txs| == |s.txs| && s' == s.(txs := s.txs[t := s'.txs[t]], journal := s'.journal)
    requires s'.txs[t].key == s.txs[t].key != key
    ensures SiblingTo(s', key) == SiblingTo(s, key)
  {
    FindKeyUpdate(s.txs, t, s'.txs[t], key);
  }

  lemma {:induction false} SliceRowsGrow(s: State, s': State, t: TxId)
    requires t < |s.txs| <= |s'.txs| && SameWallets(s.wallets, s'.wallets) && s.txs[t].kind == Deposit
    requires !IsChildKey(s.txs[t].key) && SliceRows(s'.txs, |s.txs|, OfRepayment(t))
    requires forall i :: 0 <= i < |s.txs| && i != t ==> s'.txs[i] == s.txs[i]
    requires s.txs[t].status == Awaiting && s'.txs[t] == s.txs[t].(amount := s'.txs[t].amount, status := Completed)
    ensures Grows(s, s', {t})
    ensures forall i :: |s.txs| <= i < |s'.txs| ==> KeyKnown(s'.txs, i) && MarkerKnown(s'.txs, i) && Skipped(s'.txs[i])
  {
  }

  lemma {:induction false} LandedIsRouted(s: State, t: TxId, charge: Charge, r: Routed)
    requires Formed(s) && Chargeable(s, t) && LandRepayment(s, t, s.txs[t].to.value).Ok?
    requires ChargeOf(s, t) == Ok(charge) && Route(s, s.txs[t].to.value, charge.parts, false, OfRepayment(t)) == Ok(r)
    ensures r.state == s.(txs := r.state.txs) && s.txs <= r.state.txs
    ensures s.txs[t].amount == charge.principal + r.unrouted + Sum(r.legs, MovedAmount())
  {
    hide Formed, LandRepayment, Route, ChargeOf, CashInLegs;
    var main := s.txs[t].to.value;
    var charged, routed := LandUnfolds(s, t);
    RouteSplits(s, main, charge.parts, false, OfRepayment(t));
    var amount := charge.principal + r.unrouted;
    CashInBalances(s.wallets[main].typ.currency, s.txs[t].amount, [Movement(Own(s, main), amount)] + r.legs);
    LandedWhole(s, main, amount, r.legs);
  }

  /** After the charge has landed, the script finds the slices that were routed, in order. */
  lemma {:induction false} ChargeSlices(s: State, s1: State, t: TxId, charge: Charge, r: Routed)
    requires Chargeable(s, t) && ChargeOf(s, t) == Ok(charge) && !IsChildKey(s.txs[t].key)
    requires Route(s, s.txs[t].to.value, charge.parts, false, OfRepayment(t)) == Ok(r)
    requires forall slice: Slice :: FindKey(s.txs, RepaymentSlice(t, slice)).None?
    requires t < |r.state.txs| == |s1.txs| && s1 == r.state.(txs := r.state.txs[t := s1.txs[t]], journal := s1.journal)
    requires s1.txs[t].key == r.state.txs[t].key == s.txs[t].key
    ensures SliceLegs(s1, OfRepayment(t)) == r.legs
    ensures SliceRows(s1.txs, |s.txs|, OfRepayment(t))
  {
    hide RepaymentSplit, SiblingTo, LegFor, LegsOf, Route, SliceLeg;
    var (rows, w) := RepaidRows(s, s.txs[t]);
    var split := RepaymentSplit(rows);
    var terms, unblockFee := s.wallets[w].typ.terms, s.txs[t].amount - split.principal - split.fee - split.penalty;
    assert charge.parts == Parts(terms, split.fee, split.penalty, unblockFee);
    forall slice: Slice ensures NoSliceYet(s.txs, OfRepayment(t), slice) {
      assert SliceKey(OfRepayment(t), slice) == RepaymentSlice(t, slice);
    }
    SlicesFound(s, s.txs[t].to.value, charge.parts, false, OfRepayment(t));
    OnlyRouted(s, r.state, charge.parts, OfRepayment(t));
    forall slice: Slice
      ensures SiblingTo(s1, SliceKey(OfRepayment(t), slice)) == LegFor(s, charge.parts, slice)
    {
      RowChangeKeepsSiblings(r.state, s1, t, SliceKey(OfRepayment(t), slice));
    }
    SlicesInOrder(s, s1, terms, split.fee, split.penalty, unblockFee, OfRepayment(t));
  }

  lemma {:induction false} LandRepaymentAgrees(s: State, t: TxId)
    requires Rebuildable(s) && Chargeable(s, t) && s.txs[t].status == Awaiting && s.txs[t].completes.None?
    requires s.txs[t].kind == Deposit && LandRepayment(s, t, s.txs[t].to.value).Ok?
    ensures var s1 := LandRepayment(s, t, s.txs[t].to.value).value;
            Agree(s1) && RefsKnown(s1.txs)
  {
    hide Formed, LandRepayment, Route, ChargeOf, CashInLegs, Accepts, MovesMoney, Grows, MoneyEntries, RefsKnown,
      Rebuilt, Skipped, KeyKnown, MarkerKnown, SliceRows, SliceLegs, Handle, IsChildLeg, IsChildKey, RowOk;
    var main := s.txs[t].to.value;
    var charge, r := LandUnfolds(s, t);
    var amount := charge.principal + r.unrouted;
    var credits := [Movement(Own(s, main), amount)] + r.legs;
    var posted := Entry(t, CashInLegs(BankCash, s.wallets[main].typ.currency, s.txs[t].amount, credits));
    var s1 := LandRepayment(s, t, main).value;
    LandedIsRouted(s, t, charge, r);
    AbsentBefore(s, t);
    NotAChild(s, t);
    ChargeSlices(s, s1, t, charge, r);
    ChargeRebuilt(s, s1, t, r, amount);
    CashInIsMoney(t, s.wallets[main].typ.currency, s.txs[t].amount, credits);
    UndecidedIsEmpty(s, t);
    SliceRowsGrow(s, s1, t);
    forall id: TxId ensures MoneyEntries(s1.journal, id) == MoneyEntries(s.journal, id)
        + if id == t then [posted] else [] {
      assert s.journal + [] + [posted] == s1.journal;
      TouchedEntries(s.journal, [], posted, t, id);
    }
    forall id | |s.txs| <= id < |s1.txs| ensures AgreesAt(s1, id) {
      NothingPosted(s, id);
      ChildIsSkipped(s1, id);
    }
    GrowsAgrees(s, s1, {t});
  }

  // ---- Settling installments ----

  /** What settling leaves: VIRTUAL rows that restore ceilings, and entries that only track debts. */
  ghost predicate OnlyRestores(s: State, s': State, tx: TxId) {
    && SameWallets(s.wallets, s'.wallets) && s.txs <= s'.txs && s.journal <= s'.journal
    && (forall i :: |s.txs| <= i < |s'.txs| ==> s'.txs[i].kind == Virtual && s'.txs[i].key.InstallmentRestore?)
    && (forall k :: |s.journal| <= k < |s'.journal| ==> s'.journal[k].tx == tx && !MovesMoney(s'.journal[k]))
  }

  lemma {:induction false} RestoresThrough(a: State, b: State, c: State, tx: TxId)
    requires OnlyRestores(a, b, tx) && OnlyRestores(b, c, tx)
    ensures OnlyRestores(a, c, tx)
  {
    hide MovesMoney;
  }

  lemma {:induction false} NoRestores(s: State, s': State, tx: TxId)
    requires s'.txs == s.txs && s'.journal == s.journal && SameWallets(s.wallets, s'.wallets)
    ensures OnlyRestores(s, s', tx)
  {
    hide MovesMoney;
  }

  lemma {:induction false} SettleOneRestores(s: State, i: nat, tx: TxId)
    requires Formed(s) && i < |s.installments| && SettleOne(s, i, tx).Ok?
    ensures OnlyRestores(s, SettleOne(s, i, tx).value, tx)
  {
    hide Formed, SettleOne, ReceivableLegs, MovesMoney;
    FormedPlan(s, i);
    SettlementTables(s, i, tx);
    TrackingIsNoMoney(tx, Own(s, s.installments[i].wallet), -s.installments[i].principal);
  }

  lemma {:induction false} MarkPaidRestores(s: State, i: nat, tx: TxId)
    requires Formed(s) && i < |s.installments| && MarkPaid(s, i, tx).Ok?
    ensures OnlyRestores(s, MarkPaid(s, i, tx).value, tx)
  {
    hide Formed, SettleOne, OnlyRestores;
    SettleOneRestores(s, i, tx);
    NoRestores(SettleOne(s, i, tx).value, MarkPaid(s, i, tx).value, tx);
    RestoresThrough(s, SettleOne(s, i, tx).value, MarkPaid(s, i, tx).value, tx);
  }

  lemma {:induction false} SettleOutstandingRestores(s: State, w: WalletId, n: nat, tx: TxId)
    requires Formed(s) && n <= |s.installments| && SettleOutstanding(s, w, n, tx).Ok?
    ensures OnlyRestores(s, SettleOutstanding(s, w, n, tx).value, tx)
  {
    hide Formed, SettleOne, OnlyRestores;
    if n == 0 {
      NoRestores(s, s, tx);
    } else {
      SettleOutstandingRestores(s, w, n - 1, tx);
      SettlingGrows(s, w, n - 1, tx);
      var s1 := SettleOutstanding(s, w, n - 1, tx).value;
      if Outstanding(s1.installments[n - 1], w) {
        SettleOneRestores(s1, n - 1, tx);
        RestoresThrough(s, s1, SettleOutstanding(s, w, n, tx).value, tx);
      }
    }
  }

  lemma {:induction false} MarkAllPaidRestores(s: State, w: WalletId, tx: TxId)
    requires Formed(s) && MarkAllPaid(s, w, tx).Ok?
    ensures OnlyRestores(s, MarkAllPaid(s, w, tx).value, tx)
  {
    hide Formed, SettleOutstanding, OnlyRestores;
    SettleOutstandingRestores(s, w, |s.installments|, tx);
    var s1 := SettleOutstanding(s, w, |s.installments|, tx).value;
    NoRestores(s1, MarkAllPaid(s, w, tx).value, tx);
    RestoresThrough(s, s1, MarkAllPaid(s, w, tx).value, tx);
  }

  lemma {:induction false} RestoresAgree(s: State, s': State, tx: TxId)
    requires Rebuildable(s) && OnlyRestores(s, s', tx) && tx < |s.txs|
    ensures Agree(s') && RefsKnown(s'.txs)
  {
    hide Formed, MoneyEntries, RefsKnown, Rebuilt, MovesMoney, SameWallets;
    var more := s'.journal[|s.journal|..];
    assert s'.journal == s.journal + more;
    forall id: TxId ensures MoneyEntries(s'.journal, id) == MoneyEntries(s.journal, id) {
      MoneyConcat(s.journal, more, id);
      NoMoney(more, id);
      assert MoneyEntries(s.journal, id) + [] == MoneyEntries(s.journal, id);
    }
    forall id | |s.txs| <= id < |s'.txs| ensures AgreesAt(s', id) {
      NothingPosted(s, id);
      ChildIsSkipped(s', id);
    }
    GrowsAgrees(s, s', {});
  }

  lemma {:induction false} RepaymentAgrees(s: State, t: TxId)
    requires Rebuildable(s) && t < |s.txs| && s.txs[t].kind == Deposit && s.txs[t].status == Awaiting
    requires IsRepayment(s.txs[t]) && s.txs[t].completes.None? && ReceiveMoney(s, t).Ok?
    ensures var s' := ReceiveMoney(s, t).value;
            Agree(s') && RefsKnown(s'.txs)
  {
    hide Formed, LandRepayment, MarkPaid, MarkAllPaid, Agree, RefsKnown, OnlyRestores;
    FormedRow(s, t);
    LandRepaymentGrows(s, t);
    LandRepaymentAgrees(s, t);
    var s1, tx := LandRepayment(s, t, s.txs[t].to.value).value, s.txs[t];
    if tx.installment.Some? {
      MarkPaidRestores(s1, tx.installment.value, t);
    } else {
      MarkAllPaidRestores(s1, tx.settles.value, t);
    }
    RestoresAgree(s1, ReceiveMoney(s, t).value, t);
  }

  // ---- Write-offs ----

  predicate SomeOpen(ws: seq<Wallet>, parts: seq<Part>) {
    exists i :: 0 <= i < |parts| && OpenTarget(ws, parts[i])
  }

  /** Fee, penalty and unblock fee of what `w` owes. */
  function OwedParts(s: State, w: WalletId, quit: bool): seq<Part>
    requires w < |s.wallets|
  {
    var split, terms := RepaymentSplit(OutstandingRows(s.installments, w)), s.wallets[w].typ.terms;
    Parts(terms, split.fee, split.penalty, if quit then 0 else terms.unblockFee)
  }

  /** Some fee, penalty or unblock slice of what `w` owes has an open sub-repository. */
  predicate RoutesASlice(s: State, w: WalletId, quit: bool) {
    w < |s.wallets| ==> SomeOpen(s.wallets, OwedParts(s, w, quit))
  }

  /** One of the slices a write-off routes is named like one that the script asks an earlier adjustment for,
      which is rebuilt into something. */
  predicate TakesOver(s: State, w: WalletId, quit: bool, key: string) {
    w < |s.wallets|
    && exists id, slice: Slice ::
         && 0 <= id < |s.txs| && OwnsSlice(s.txs[id], SliceKey(AbsorbPrefix(quit, key), slice))
         && LegFor(s, OwedParts(s, w, quit), slice) != [] && Rebuilt(s, id) != []
  }

  lemma {:induction false} InstallmentFacts(s: State, k: nat)
    requires Formed(s) && k < |s.installments|
    ensures var row := s.installments[k];
            && row.wallet < |s.wallets| && row.principal >= 0 && row.fee >= 0
            && Accrued(row, s.wallets[row.wallet].typ.terms.penaltyMilli)
  {
    hide Formed;
    FormedPlan(s, k);
  }

  lemma {:induction false} NothingNegative(s: State, w: WalletId)
    requires Formed(s) && w < |s.wallets|
    ensures RepaymentSplit(OutstandingRows(s.installments, w)).fee >= 0
    ensures RepaymentSplit(OutstandingRows(s.installments, w)).penalty >= 0
  {
    hide Formed, Accrued, OutstandingRows;
    var rows, penaltyMilli := OutstandingRows(s.installments, w), s.wallets[w].typ.terms.penaltyMilli;
    OutstandingPrincipal(s.installments, w);
    forall i | 0 <= i < |rows| ensures rows[i].principal >= 0 && rows[i].fee >= 0 && Accrued(rows[i], penaltyMilli) {
      assert rows[i] in s.installments && rows[i].wallet == w;
      var k :| 0 <= k < |s.installments| && s.installments[k] == rows[i];
      InstallmentFacts(s, k);
    }
    PenaltyNeverNegative(rows, penaltyMilli);
    SumNonNegative(rows, FeeOf());
  }

  lemma {:induction false} LegsOfThree(s: State, terms: Terms, fee: int, penalty: int, unblockFee: int)
    ensures var parts := Parts(terms, fee, penalty, unblockFee);
            && LegsOf(s, parts) == SliceLeg(s, parts[0]) + SliceLeg(s, parts[1]) + SliceLeg(s, parts[2])
            && LegFor(s, parts, UnblockSlice) == SliceLeg(s, parts[2])
            && LegFor(s, parts, PenaltySlice) == SliceLeg(s, parts[1])
            && LegFor(s, parts, FeeSlice) == SliceLeg(s, parts[0])
  {
    hide SliceLeg;
    var parts := Parts(terms, fee, penalty, unblockFee);
    var two := [parts[0], parts[1]];
    assert parts[..2] == two && two[..1] == [parts[0]] && [parts[0]][..0] == [];
    LegForLast(s, parts);
    LegForLast(s, two);
    LegForLast(s, [parts[0]]);
    assert LegsOf(s, [parts[0]]) == [] + SliceLeg(s, parts[0]);
  }

  function AbsorbPrefix(quit: bool, key: string): SplitPrefix {
    if quit then OfQuit(key) else OfOverdue(key)
  }

  lemma {:induction false} NoAbsorbYet(s: State, key: string)
    requires !Foreign(s.txs, key)
    ensures forall quit: bool, slice: Slice :: NoSliceYet(s.txs, AbsorbPrefix(quit, key), slice)
  {
    forall quit: bool, slice: Slice ensures NoSliceYet(s.txs, AbsorbPrefix(quit, key), slice) {
      assert Absorbs(SliceKey(AbsorbPrefix(quit, key), slice), key);
    }
  }

  lemma {:induction false} KeyUnused(a: seq<Tx>, b: seq<Tx>, key: Key)
    requires a <= b && FindKey(b, key).None?
    ensures FindKey(a, key).None?
  {
    if FindKey(a, key).Some? {
      FindKeyGrown(a, b, key);
    }
  }

  /** The adjustment row of a write-off and its slices, found again. */
  lemma {:induction false} AbsorbedFound(s: State, r: Routed, row: Tx, main: WalletId, terms: Terms, fee: int,
      penalty: int, unblockFee: int,
                      quit: bool, key: string)
    requires !Foreign(s.txs, key) && row.key == Client(key) && row.kind == Adjustment
    requires Route(s, main, Parts(terms, fee, penalty, unblockFee), true, AbsorbPrefix(quit, key)) == Ok(r)
    requires quit ==> unblockFee == 0
    ensures s.txs <= r.state.txs && r.state == s.(txs := r.state.txs)
    ensures var s1 := r.state.(txs := r.state.txs + [row]);
            && AbsorbedLegs(s1, row) == r.legs == LegsOf(s, Parts(terms, fee, penalty, unblockFee))
            && SliceRows(r.state.txs, |s.txs|, AbsorbPrefix(quit, key))
            && forall slice: Slice :: LegFor(s, Parts(terms, fee, penalty, unblockFee), slice) == [] ==>
                 NoSliceYet(r.state.txs, AbsorbPrefix(quit, key), slice)
  {
    hide SiblingTo, SliceLeg, Route, SliceRows, FindKey, LegFor;
    var parts, prefix, other := Parts(terms, fee, penalty, unblockFee), AbsorbPrefix(quit, key),
        AbsorbPrefix(!quit, key);
    var s1 := r.state.(txs := r.state.txs + [row]);
    PrefixOfRoute(s, main, parts, prefix, r);
    NoAbsorbYet(s, key);
    SlicesInOrderParts(terms, fee, penalty, unblockFee);
    SlicesFound(s, main, parts, true, prefix);
    OnlyRouted(s, r.state, parts, prefix);
    forall slice: Slice ensures SiblingTo(s1, SliceKey(prefix, slice)) == LegFor(s, parts, slice) {
      SiblingAfterRow(r.state, row, SliceKey(prefix, slice));
    }
    SlicesInOrder(s, s1, terms, fee, penalty, unblockFee, prefix);
    forall slice: Slice ensures SiblingTo(s1, SliceKey(other, slice)) == [] {
      OtherPrefixAbsent(s, r.state, quit, key, slice);
      SiblingAfterRow(r.state, row, SliceKey(other, slice));
      AbsentIsNothing(r.state, SliceKey(other, slice));
    }
    LegsOfThree(s, terms, fee, penalty, unblockFee);
    ZeroIsNotRouted(s, parts[2]);
    assert SliceLegs(s1, other) == [];
    assert [] + r.legs == r.legs && r.legs + [] == r.legs;
  }

  lemma {:induction false} ZeroIsNotRouted(s: State, part: Part)
    ensures part.amount <= 0 ==> SliceLeg(s, part) == []
  {
  }

  lemma {:induction false} AbsentIsNothing(s: State, key: Key)
    requires FindKey(s.txs, key).None?
    ensures SiblingTo(s, key) == []
  {
  }

  lemma {:induction false} SlicesInOrderParts(terms: Terms, fee: int, penalty: int, unblockFee: int)
    ensures DistinctSlices(Parts(terms, fee, penalty, unblockFee))
  {
  }

  lemma {:induction false} PrefixOfRoute(s: State, main: WalletId, parts: seq<Part>, prefix: SplitPrefix, r: Routed)
    requires Route(s, main, parts, true, prefix) == Ok(r)
    ensures s.txs <= r.state.txs && r.state == s.(txs := r.state.txs)
  {
    if |parts| > 0 {
      PrefixOfRoute(s, main, parts[..|parts| - 1], prefix, Route(s, main, parts[..|parts| - 1], true, prefix).value);
    }
  }

  lemma {:induction false} SiblingAfterRow(s: State, row: Tx, key: Key)
    requires row.key != key
    ensures SiblingTo(s.(txs := s.txs + [row]), key) == SiblingTo(s, key)
  {
    FindKeySnoc(s.txs, row, key);
  }

  lemma {:induction false} OtherPrefixAbsent(s: State, after: State, quit: bool, key: string, slice: Slice)
    requires s.txs <= after.txs && SliceRows(after.txs, |s.txs|, AbsorbPrefix(quit, key))
    requires NoSliceYet(s.txs, AbsorbPrefix(!quit, key), slice)
    ensures FindKey(after.txs, SliceKey(AbsorbPrefix(!quit, key), slice)).None?
  {
    forall i | 0 <= i < |after.txs| ensures after.txs[i].key != SliceKey(AbsorbPrefix(!quit, key), slice) {
    }
  }

  lemma {:induction false} AbsorbedTotal(ws: seq<Wallet>, terms: Terms, fee: int, penalty: int, unblockFee: int,
      unrouted: int, legs: seq<Movement>)
    requires fee >= 0 && penalty >= 0 && unblockFee >= 0
    requires IsRouted(ws, Parts(terms, fee, penalty, unblockFee), unrouted, legs)
    ensures Sum(legs, MovementAmount()) == fee + penalty + unblockFee - unrouted
  {
    ThreeParts(terms, fee, penalty, unblockFee, PartAmount());
    MovedIsMovement(legs);
  }

  /** A slice row of a write-off names it, and the script folds it into another row. */
  lemma {:induction false} SliceIsChild(quit: bool, key: string, slice: Slice)
    ensures var k := SliceKey(AbsorbPrefix(quit, key), slice); IsChildLeg(k) && IsChildKey(k) && Absorbs(k, key)
  {
    var text := key + Suffix(slice);
    assert text[|text| - |Suffix(slice)|..] == Suffix(slice);
    if slice == UnblockSlice {
      assert text[|text| - 4..] == "-fee";
    }
  }

  /** The rows that are asked for what the new slices are named. */
  function Asked(s: State, txs: seq<Tx>, n: nat): set<TxId>
    requires n <= |txs|
  {
    set id: nat | 0 <= id < |s.txs| && exists i :: |s.txs| <= i < n && OwnsSlice(s.txs[id], txs[i].key)
  }

  lemma {:induction false} AskedAreMute(s: State, w: WalletId, quit: bool, key: string, txs: seq<Tx>)
    requires w < |s.wallets| && |s.txs| <= |txs| && SliceRows(txs, |s.txs|, AbsorbPrefix(quit, key))
    requires forall slice: Slice :: LegFor(s, OwedParts(s, w, quit), slice) == [] ==>
        NoSliceYet(txs, AbsorbPrefix(quit, key), slice)
    requires !TakesOver(s, w, quit, key)
    ensures forall id :: id in Asked(s, txs, |txs|) ==> Rebuilt(s, id) == []
  {
    hide FindKey, OwnsSlice, SliceKey, LegFor, OwedParts, Rebuilt;
    forall id | id in Asked(s, txs, |txs|) ensures Rebuilt(s, id) == [] {
      var i :| |s.txs| <= i < |txs| && OwnsSlice(s.txs[id], txs[i].key);
      var slice: Slice :| txs[i].key == SliceKey(AbsorbPrefix(quit, key), slice);
      assert FindKey(txs, SliceKey(AbsorbPrefix(quit, key), slice)).Some?;
      assert LegFor(s, OwedParts(s, w, quit), slice) != [];
    }
  }

  lemma {:induction false} AbsorbRows(s: State, s2: State, n: TxId, row: Tx, quit: bool, key: string)
    requires RefsKnown(s.txs)
    requires |s.txs| <= n && |s2.txs| == n + 1 && s.txs <= s2.txs && s2.txs[n] == row
        && SameWallets(s.wallets, s2.wallets)
    requires row.key == Client(key) && row.kind == Adjustment
    requires SliceRows(s2.txs[..n], |s.txs|, AbsorbPrefix(quit, key))
    ensures Grows(s, s2, Asked(s, s2.txs, n)) && DoneKept(s, s2, Asked(s, s2.txs, n))
    ensures forall i :: |s.txs| <= i < |s2.txs| ==> KeyKnown(s2.txs, i) && MarkerKnown(s2.txs, i)
    ensures forall i :: |s.txs| <= i < n ==> Skipped(s2.txs[i])
  {
    hide FindKey, IsChildLeg, ReadsAsSlice, SliceKey;
    forall i | |s.txs| <= i < n
      ensures s2.txs[i].key.OverdueAbsorb? || s2.txs[i].key.QuitAbsorb?
      ensures s2.txs[i].kind != Purchase && s2.txs[i].status == Completed && s2.txs[i].to.Some?
      ensures Skipped(s2.txs[i]) && HasOwner(s2.txs, s2.txs[i].key)
    {
      assert s2.txs[..n][i] == s2.txs[i];
      var slice: Slice :| s2.txs[i].key == SliceKey(AbsorbPrefix(quit, key), slice);
      SliceIsChild(quit, key, slice);
      assert OwnsSlice(s2.txs[n], s2.txs[i].key);
    }
    forall id | id in Asked(s, s2.txs, n) ensures s.txs[id].kind == Adjustment && !HasMarker(s.txs, id) {
      forall m | 0 <= m < |s.txs| ensures !(s.txs[m].kind == Purchase && s.txs[m].related == Some(id)) {
        assert MarkerKnown(s.txs, m);
      }
    }
  }

  // ---- Adjustments and the slices they are asked for ----

  lemma {:induction false} SiblingKept(s: State, s': State, key: Key)
    requires BackedOk(s.wallets) && RowsOk(|s.wallets|, |s.installments|, s.txs) && SameWallets(s.wallets, s'.wallets)
    requires s.txs <= s'.txs
    ensures SiblingTo(s, key) != [] ==> SiblingTo(s', key) == SiblingTo(s, key)
  {
    hide BackedOk, RowsOk, SameWallets, FindKey;
    if FindKey(s.txs, key).Some? {
      FindKeyGrown(s.txs, s'.txs, key);
      if s.txs[FindKey(s.txs, key).value].to.Some? {
        SidesOf(|s.wallets|, |s.installments|, s.txs, FindKey(s.txs, key).value);
        HoldersAlike(s, s', s.txs[FindKey(s.txs, key).value].to.value);
      }
    }
  }

  lemma {:induction false} LegsKept(s: State, s': State, t: Tx)
    requires BackedOk(s.wallets) && RowsOk(|s.wallets|, |s.installments|, s.txs) && SameWallets(s.wallets, s'.wallets)
    requires s.txs <= s'.txs
    ensures forall m :: m in AbsorbedLegs(s, t) ==> m in AbsorbedLegs(s', t)
  {
    hide BackedOk, RowsOk, SameWallets, SiblingTo, SliceKey;
    forall key: Key ensures SiblingTo(s, key) != [] ==> SiblingTo(s', key) == SiblingTo(s, key) {
      SiblingKept(s, s', key);
    }
  }

  lemma {:induction false} SiblingPositive(s: State, key: Key)
    requires RowsOk(|s.wallets|, |s.installments|, s.txs)
    ensures forall m :: m in SiblingTo(s, key) ==> m.amount > 0
  {
    hide RowsOk, FindKey;
    if FindKey(s.txs, key).Some? {
      PositiveRow(s, FindKey(s.txs, key).value);
    }
  }

  lemma {:induction false} LegsPositive(s: State, t: Tx)
    requires RowsOk(|s.wallets|, |s.installments|, s.txs)
    ensures forall i :: 0 <= i < |AbsorbedLegs(s, t)| ==> AbsorbedLegs(s, t)[i].amount > 0
  {
    hide RowsOk, SiblingTo, SliceKey;
    forall key: Key ensures forall m :: m in SiblingTo(s, key) ==> m.amount > 0 {
      SiblingPositive(s, key);
    }
    forall i | 0 <= i < |AbsorbedLegs(s, t)| ensures AbsorbedLegs(s, t)[i].amount > 0 {
      assert AbsorbedLegs(s, t)[i] in AbsorbedLegs(s, t);
    }
  }

  lemma {:induction false} PositiveRow(s: State, id: TxId)
    requires RowsOk(|s.wallets|, |s.installments|, s.txs) && id < |s.txs|
    ensures s.txs[id].amount > 0
  {
    assert RowOk(|s.wallets|, |s.installments|, s.txs, id);
  }

  lemma {:induction false} InOneCurrency(legs: seq<Movement>, c: CurrencyId)
    requires forall i :: 0 <= i < |legs| ==> legs[i].amount > 0
    ensures Sum(legs, MovedIn(c)) <= Sum(legs, MovementAmount())
    ensures Sum(legs, MovedIn(c)) == Sum(legs, MovementAmount()) <==> forall m :: m in legs ==> m.holder.currency == c
    ensures |legs| > 0 ==> Sum(legs, MovementAmount()) > 0
    ensures (exists m :: m in legs && m.holder.currency == c) ==> Sum(legs, MovedIn(c)) > 0
    ensures Sum(legs, MovedIn(c)) >= 0
  {
    if |legs| > 0 {
      var init, last := legs[..|legs| - 1], legs[|legs| - 1];
      InOneCurrency(init, c);
      assert init + [last] == legs;
      assert forall m :: m in legs <==> m in init || m == last;
    }
  }

  lemma {:induction false} MultiLength(ms: seq<Movement>, sign: int)
    requires forall i :: 0 <= i < |ms| ==> ms[i].amount > 0
    ensures |MovementLegs(ms, sign)| == |ms|
  {
    if |ms| > 0 {
      MultiLength(ms[..|ms| - 1], sign);
    }
  }

  lemma {:induction false} MultiSize(debits: seq<Movement>, credits: seq<Movement>)
    requires forall i :: 0 <= i < |debits| ==> debits[i].amount > 0
    requires forall i :: 0 <= i < |credits| ==> credits[i].amount > 0
    ensures |MultiLegs(debits, credits)| == |debits| + |credits|
  {
    MultiLength(debits, -1);
    MultiLength(credits, 1);
  }

  /** An entry that collects slices is accepted if and only if they are all in the payer's currency. */
  lemma {:induction false} MultiAccepted(h: Holder, legs: seq<Movement>)
    requires |legs| > 0 && forall i :: 0 <= i < |legs| ==> legs[i].amount > 0
    ensures Accepts(MultiLegs([Movement(h, Sum(legs, MovementAmount()))], legs))
       <==> forall m :: m in legs ==> m.holder.currency == h.currency
  {
    hide MultiLegs, Accepts;
    var debits := [Movement(h, Sum(legs, MovementAmount()))];
    AcceptsExactly(MultiLegs(debits, legs));
    MultiEffect(debits, legs);
    InOneCurrency(legs, h.currency);
    forall c ensures Sum(debits, MovedIn(c)) == if c == h.currency then Sum(legs, MovementAmount()) else 0 {
      SumSnoc([], debits[0], MovedIn(c));
      assert [] + [debits[0]] == debits;
    }
    MultiSize(debits, legs);
    if m :| m in legs && m.holder.currency != h.currency {
      InOneCurrency(legs, m.holder.currency);
      assert Sum(MultiLegs(debits, legs), SignedIn(m.holder.currency)) < 0;
    } else {
      forall c ensures Sum(legs, MovedIn(c)) == Sum(debits, MovedIn(c)) {
        if c != h.currency {
          NotInCurrency(legs, c);
        }
      }
    }
  }

  lemma {:induction false} NotInCurrency(legs: seq<Movement>, c: CurrencyId)
    requires forall m :: m in legs ==> m.holder.currency != c
    ensures Sum(legs, MovedIn(c)) == 0
  {
    forall i | 0 <= i < |legs| ensures MovedIn(c)(legs[i]) == 0 {
      assert legs[i] in legs;
    }
    SumZero(legs, MovedIn(c));
  }

  predicate IsAdjustment(t: Tx) {
    t.kind == Adjustment && t.key.Client?
  }

  /** What an adjustment is rebuilt into, by cases. */
  lemma {:induction false} AdjustmentRebuilt(s: State, id: TxId)
    requires RowsOk(|s.wallets|, |s.installments|, s.txs) && id < |s.txs| && IsAdjustment(s.txs[id])
    ensures var t := s.txs[id];
            var legs := AbsorbedLegs(s, t);
            && InTable(t.from, |s.wallets|) && InTable(t.to, |s.wallets|)
            && Rebuilt(s, id) ==
               if |legs| > 0 then
                 if t.from.None? || exists m :: m in legs && m.holder.currency != Own(s, t.from.value).currency then []
                 else [Entry(id, MultiLegs([Movement(Own(s, t.from.value), Sum(legs, MovementAmount()))], legs))]
               else if t.to.Some? then [Entry(id, Against(Own(s, t.to.value), t.amount, LedgerAdjustments))]
               else if t.from.Some? then [Entry(id, Against(Own(s, t.from.value), -t.amount, LedgerAdjustments))]
               else []
  {
    hide RowsOk, MultiLegs, AbsorbedLegs, Accepts, Against, Own, AllAccepted;
    var t := s.txs[id];
    var legs := AbsorbedLegs(s, t);
    SidesOf(|s.wallets|, |s.installments|, s.txs, id);
    PositiveRow(s, id);
    LegsPositive(s, t);
    if |legs| > 0 {
      if t.from.Some? {
        var e := Entry(id, MultiLegs([Movement(Own(s, t.from.value), Sum(legs, MovementAmount()))], legs));
        MultiAccepted(Own(s, t.from.value), legs);
        assert Handle(s, id) == [e];
        AcceptedAlone(e);
      }
    } else if t.to.Some? || t.from.Some? {
      var w, delta := if t.to.Some? then t.to.value else t.from.value, if t.to.Some? then t.amount else -t.amount;
      PlainAccepted(Own(s, w), delta);
      assert Handle(s, id) == [Entry(id, Against(Own(s, w), delta, LedgerAdjustments))];
      AcceptedAlone(Entry(id, Against(Own(s, w), delta, LedgerAdjustments)));
    }
  }

  lemma {:induction false} AcceptedAlone(e: Entry)
    ensures AllAccepted([e]) <==> Accepts(e.legs)
  {
    assert [e][0] == e;
  }

  lemma {:induction false} PlainAccepted(h: Holder, delta: int)
    requires delta != 0
    ensures Accepts(Against(h, delta, LedgerAdjustments))
  {
    hide Accepts, Against;
    AgainstEffect(h, delta, LedgerAdjustments);
    AcceptsExactly(Against(h, delta, LedgerAdjustments));
  }

  /** An adjustment that is rebuilt into nothing stays so, whatever slices it is asked for later. */
  lemma {:induction false} StaysMute(s: State, s': State, id: TxId)
    requires BackedOk(s.wallets) && RowsOk(|s.wallets|, |s.installments|, s.txs) && SameWallets(s.wallets, s'.wallets)
    requires RowsOk(|s'.wallets|, |s'.installments|, s'.txs) && s.txs <= s'.txs
    requires id < |s.txs| && IsAdjustment(s.txs[id]) && Rebuilt(s, id) == []
    ensures id < |s'.txs| && Rebuilt(s', id) == []
  {
    hide RowsOk, BackedOk, SameWallets, AbsorbedLegs, Rebuilt, Own, MultiLegs, Against;
    var t := s.txs[id];
    AdjustmentRebuilt(s, id);
    AdjustmentRebuilt(s', id);
    LegsKept(s, s', t);
    var legs := AbsorbedLegs(s, t);
    if |legs| > 0 {
      assert legs[0] in AbsorbedLegs(s', t);
    }
    if t.from.Some? {
      HoldersAlike(s, s', t.from.value);
    }
  }

  lemma {:induction false} SomethingRouted(ws: seq<Wallet>, parts: seq<Part>, unrouted: int, legs: seq<Movement>)
    requires IsRouted(ws, parts, unrouted, legs) && |legs| > 0
    ensures Sum(legs, MovedAmount()) > 0
  {
    SumNonNegative(legs, MovedAmount());
  }

  lemma {:induction false} OpenSliceRoutes(s: State, terms: Terms, fee: int, penalty: int, unblockFee: int)
    ensures |LegsOf(s, Parts(terms, fee, penalty, unblockFee))| > 0
        <==> SomeOpen(s.wallets, Parts(terms, fee, penalty, unblockFee))
  {
    LegsOfThree(s, terms, fee, penalty, unblockFee);
  }

  lemma {:induction false} PostedAbsorbed(s: State, tx: TxId, r: WalletId, total: int, legs: seq<Movement>)
    requires |legs| > 0 && r < |s.wallets| && PostAbsorbed(s, tx, r, total, legs).Ok?
    ensures Accepts(MultiLegs([Movement(Own(s, r), total)], legs))
    ensures PostAbsorbed(s, tx, r, total, legs).value.journal
         == s.journal + [Entry(tx, MultiLegs([Movement(Own(s, r), total)], legs))]
  {
  }

  lemma {:induction false} AbsorptionRebuilt(s: State, n: TxId, main: WalletId, total: int, legs: seq<Movement>)
    requires n < |s.txs| && s.txs[n].kind == Adjustment && s.txs[n].from == Some(main) && s.txs[n].key.Client?
    requires main < |s.wallets| && |legs| > 0 && AbsorbedLegs(s, s.txs[n]) == legs
    requires Sum(legs, MovementAmount()) == total && Accepts(MultiLegs([Movement(Own(s, main), total)], legs))
    ensures Rebuilt(s, n) == [Entry(n, MultiLegs([Movement(Own(s, main), total)], legs))]
  {
    hide Accepts, AbsorbedLegs, MultiLegs;
    assert HandleAdjustment(s, n) == [Entry(n, MultiLegs([Movement(Own(s, main), total)], legs))];
  }

  /** The write-off up to its entry: rebuilt from the adjustment row and the slices found by its key. */
  lemma {:induction false} AbsorbAgrees(s: State, w: WalletId, quit: bool, key: string) returns (s2: State, n: TxId)
    requires Rebuildable(s) && WriteOff(s, w, quit, key).Ok? && RoutesASlice(s, w, quit)
    requires !Foreign(s.txs, key) && !TakesOver(s, w, quit, key)
    ensures Formed(s2) && Agree(s2) && RefsKnown(s2.txs) && n < |s2.txs|
    ensures WriteOff(s, w, quit, key) == MarkAllPaid(s2, w, n)
  {
    hide Formed, SameLines, WriteOff, MarkAllPaid, RefsKnown, PostAbsorbed, Route, Accepts, MovesMoney, MoneyEntries,
      Rebuilt, IsRouted, AbsorbedLegs, LegsOf, LegFor, RepaymentSplit, Grows, Skipped, KeyKnown, MarkerKnown, SliceRows,
      MultiLegs, FindKey, Foreign, TakesOver;
    var r, parts;
    r, parts, s2 := AbsorbTables(s, w, quit, key);
    AbsorbGrows(s, w, quit, key, r, parts, s2);
    n := |r.state.txs|;
    var main, terms := s.wallets[w].repository.value, s.wallets[w].typ.terms;
    var split := RepaymentSplit(OutstandingRows(s.installments, w));
    var unblockFee := if quit then 0 else terms.unblockFee;
    var total := split.fee + split.penalty + unblockFee;
    var row := Row(Adjustment, Completed, Some(main), None, total, Client(key));
    AbsorbedFound(s, r, row, main, terms, split.fee, split.penalty, unblockFee, quit, key);
    OpenSliceRoutes(s, terms, split.fee, split.penalty, unblockFee);
    NothingNegative(s, w);
    AbsorbedTotal(s.wallets, terms, split.fee, split.penalty, unblockFee, r.unrouted, r.legs);
    SomethingRouted(s.wallets, parts, r.unrouted, r.legs);
    MovedIsMovement(r.legs);
    var s1 := r.state.(txs := r.state.txs + [row]);
    PostedAbsorbed(s1, n, main, total - r.unrouted, r.legs);
    var debit := [Movement(Own(s, main), total - r.unrouted)];
    var posted := Entry(n, MultiLegs(debit, r.legs));
    MultiIsMoney(n, debit, r.legs);
    AbsorbedLegsElsewhere(s1, s2, row);
    AbsorptionRebuilt(s2, n, main, total - r.unrouted, r.legs);
    AskedAreMute(s, w, quit, key, r.state.txs);
    AbsorbClosing(s, s2, r, n, row, quit, key, posted);
  }

  lemma {:induction false} AbsorbedLegsElsewhere(s: State, s': State, t: Tx)
    requires s' == s.(journal := s'.journal)
    ensures AbsorbedLegs(s', t) == AbsorbedLegs(s, t)
  {
    hide SliceLegs;
    SameSlices(s, s');
  }

  lemma {:induction false} AbsorbClosing(s: State, s2: State, r: Routed, n: TxId, row: Tx, quit: bool, key: string,
      posted: Entry)
    requires Rebuildable(s) && s.txs <= r.state.txs && n == |r.state.txs| && Formed(s2)
    requires s2 == s.(txs := r.state.txs + [row], journal := s.journal + [posted])
    requires row.key == Client(key) && row.kind == Adjustment
    requires SliceRows(r.state.txs, |s.txs|, AbsorbPrefix(quit, key))
    requires forall id :: id in Asked(s, r.state.txs, n) ==> Rebuilt(s, id) == []
    requires posted.tx == n && MovesMoney(posted) && Rebuilt(s2, n) == [posted]
    ensures Agree(s2) && RefsKnown(s2.txs)
  {
    hide Formed, RefsKnown, MovesMoney, MoneyEntries, Rebuilt, Grows, Skipped, KeyKnown, MarkerKnown, SliceRows,
      OwnsSlice, DoneKept, BackedOk, RowsOk, Asked;
    assert s2.txs[..n] == r.state.txs;
    AbsorbRows(s, s2, n, row, quit, key);
    forall id: TxId ensures MoneyEntries(s2.journal, id) == MoneyEntries(s.journal, id)
        + if id == n then [posted] else [] {
      assert s.journal + [] + [posted] == s2.journal;
      TouchedEntries(s.journal, [], posted, n, id);
    }
    FormedTables(s);
    FormedTables(s2);
    AskedAlike(s, r.state.txs, s2.txs, n);
    forall id | id in Asked(s, s2.txs, n) ensures AgreesAt(s2, id) {
      assert AgreesAt(s, id);
      StaysMute(s, s2, id);
      assert [] + (if id == n then [posted] else []) == [];
    }
    forall id | |s.txs| <= id < |s2.txs| ensures AgreesAt(s2, id) {
      NothingPosted(s, id);
      if id < n {
        ChildIsSkipped(s2, id);
      }
    }
    forall id | 0 <= id < |s.txs| ensures MoneyEntries(s2.journal, id) == MoneyEntries(s.journal, id) {
      assert MoneyEntries(s.journal, id) + [] == MoneyEntries(s.journal, id);
    }
    GrowsAgrees(s, s2, Asked(s, s2.txs, n));
  }

  lemma {:induction false} AskedAlike(s: State, a: seq<Tx>, b: seq<Tx>, n: nat)
    requires n == |a| <= |b| && a == b[..n]
    ensures Asked(s, b, n) == Asked(s, a, n)
    ensures forall id :: id in Asked(s, a, n) ==> 0 <= id < |s.txs| && IsAdjustment(s.txs[id])
  {
    hide Absorbs;
    assert forall i :: 0 <= i < n ==> b[i] == a[i];
  }

  lemma {:induction false} WriteOffAgrees(s: State, w: WalletId, quit: bool, key: string)
    requires Rebuildable(s) && WriteOff(s, w, quit, key).Ok? && RoutesASlice(s, w, quit)
    requires !Foreign(s.txs, key) && !TakesOver(s, w, quit, key)
    ensures var s' := WriteOff(s, w, quit, key).value;
            Agree(s') && RefsKnown(s'.txs)
  {
    hide Formed, WriteOff, MarkAllPaid, Agree, RefsKnown, OnlyRestores, RoutesASlice, Foreign, TakesOver;
    var s2, n := AbsorbAgrees(s, w, quit, key);
    MarkAllPaidRestores(s2, w, n);
    RestoresAgree(s2, WriteOff(s, w, quit, key).value, n);
  }

  // ---- Refunds ----

  lemma {:induction false} NoMarkerYet(s: State, p: TxId)
    requires RefsKnown(s.txs) && p < |s.txs| && s.txs[p].status == Completed
    ensures forall m :: 0 <= m < |s.txs| ==> !(s.txs[m].kind == Purchase && s.txs[m].related == Some(p))
    ensures FindKey(s.txs, CreditFundReverse(p)).None?
  {
    forall m | 0 <= m < |s.txs| ensures !(s.txs[m].kind == Purchase && s.txs[m].related == Some(p)) {
      assert MarkerKnown(s.txs, m);
    }
    assert !HasMarker(s.txs, p);
    forall m | 0 <= m < |s.txs| ensures s.txs[m].key != CreditFundReverse(p) {
      assert KeyKnown(s.txs, m);
    }
  }

  lemma {:induction false} RefundNewRows(s: State, s': State, p: TxId, key: string)
    requires Refundable(s, p)
    requires s'.txs == s.txs[p := s.txs[p].(status := Reversed)] + Returned(s, p) + [RefundRowOf(s, p, key)]
    ensures |s.txs| < |s'.txs| && s'.txs[|s'.txs| - 1] == RefundRowOf(s, p, key)
    ensures forall i :: 0 <= i < |s.txs| ==> s'.txs[i] == if i == p then s.txs[i].(status := Reversed) else s.txs[i]
    ensures forall i :: |s.txs| <= i < |s'.txs| - 1 ==>
              && s'.txs[i].status == Completed && s'.txs[i].kind != Purchase
              && (s'.txs[i].key == CreditFundReverse(p)
                  || (s'.txs[i].key == CreditDrawReverse(p) && s'.txs[i].kind == Virtual))
  {
    hide UnpaidDraw, FundingRepository;
  }

  lemma {:induction false} RefundRowsGrow(s: State, s': State, p: TxId, key: string)
    requires RefsKnown(s.txs) && Refundable(s, p) && SameWallets(s.wallets, s'.wallets)
    requires s'.txs == s.txs[p := s.txs[p].(status := Reversed)] + Returned(s, p) + [RefundRowOf(s, p, key)]
    ensures Grows(s, s', {p}) && DoneKept(s, s', {p})
    ensures forall i :: |s.txs| <= i < |s'.txs| ==> KeyKnown(s'.txs, i) && MarkerKnown(s'.txs, i)
    ensures forall i :: |s.txs| <= i < |s'.txs| - 1 ==> Skipped(s'.txs[i])
  {
    hide UnpaidDraw, FundingRepository, RefsKnown, Returned, SameWallets, FindKey;
    RefundNewRows(s, s', p, key);
    NotAChild(s, p);
    NoMarkerYet(s, p);
    assert HasMarker(s'.txs, p);
  }

  /** The refunded purchase is still rebuilt as when it was completed: its marker says that it once was. */
  lemma {:induction false} RefundedStillRebuilt(s: State, s': State, p: TxId, key: string)
    requires BackedOk(s.wallets) && RowsOk(|s.wallets|, |s.installments|, s.txs) && RefsKnown(s.txs) && Refundable(s, p)
    requires SameWallets(s.wallets, s'.wallets) && Grows(s, s', {p})
    requires s'.txs == s.txs[p := s.txs[p].(status := Reversed)] + Returned(s, p) + [RefundRowOf(s, p, key)]
    ensures Rebuilt(s', p) == Rebuilt(s, p)
  {
    hide BackedOk, RowsOk, RefsKnown, Grows, Handle, UnpaidDraw, FundingRepository, LooksUpAlike, AllAccepted, FindKey;
    var n := |s'.txs| - 1;
    assert s'.txs[n] == RefundRowOf(s, p, key);
    assert HasMarker(s'.txs, p);
    forall k: Key | Watches(s.txs[p], p, k) ensures LooksUpAlike(s, s', k) {
      LookupKept(s, s', {p}, k);
    }
    HandledAlike(s, s', p);
  }

  lemma {:induction false} ReturnFound(s: State, s': State, p: TxId, key: string)
    requires BackedOk(s.wallets) && RefsKnown(s.txs) && Refundable(s, p) && SameWallets(s.wallets, s'.wallets)
    requires FundingRepository(s, p, s.txs[p].from.value) < |s.wallets|
    requires s'.txs == s.txs[p := s.txs[p].(status := Reversed)] + Returned(s, p) + [RefundRowOf(s, p, key)]
    ensures SiblingTo(s', CreditFundReverse(p))
         == if UnpaidDraw(s, p) > 0
             then [Movement(Own(s, FundingRepository(s, p, s.txs[p].from.value)), UnpaidDraw(s, p))] else []
  {
    hide BackedOk, RefsKnown, UnpaidDraw, FundingRepository, FindKey;
    NoMarkerYet(s, p);
    if UnpaidDraw(s, p) > 0 {
      HoldersAlike(s, s', FundingRepository(s, p, s.txs[p].from.value));
      FindKeyIs(s'.txs, CreditFundReverse(p), |s.txs|);
    } else {
      StillAbsent(s, s', CreditFundReverse(p));
    }
  }

  /** The marker is rebuilt into the refund's entry. */
  lemma {:induction false} RefundRebuilt(s: State, s': State, p: TxId, key: string)
    requires BackedOk(s.wallets) && RefsKnown(s.txs) && Refundable(s, p) && SameWallets(s.wallets, s'.wallets)
    requires FundingRepository(s, p, s.txs[p].from.value) < |s.wallets|
    requires s'.txs == s.txs[p := s.txs[p].(status := Reversed)] + Returned(s, p) + [RefundRowOf(s, p, key)]
    requires Accepts(MultiLegs([Movement(Own(s, s.txs[p].to.value), s.txs[p].amount)], RefundCredits(s, p)))
    ensures var n := |s'.txs| - 1;
            Rebuilt(s', n)
                == [Entry(n, MultiLegs([Movement(Own(s, s.txs[p].to.value), s.txs[p].amount)], RefundCredits(s, p)))]
  {
    hide BackedOk, RefsKnown, UnpaidDraw, FundingRepository, Accepts, MultiLegs, SiblingTo, SameWallets, Own, FindKey;
    var n := |s'.txs| - 1;
    ReturnFound(s, s', p, key);
    HoldersAlike(s, s', s.txs[p].to.value);
    HoldersAlike(s, s', s.txs[p].from.value);
    var returned := SiblingTo(s', CreditFundReverse(p));
    if UnpaidDraw(s, p) > 0 {
      SumSnoc([], returned[0], MovementAmount());
      assert [] + [returned[0]] == returned;
    }
    assert s'.txs[n] == RefundRowOf(s, p, key);
    assert HandlePurchase(s', n)
        == [Entry(n, MultiLegs([Movement(Own(s, s.txs[p].to.value), s.txs[p].amount)], RefundCredits(s, p)))];
  }

  lemma {:induction false} RefundAgrees(s: State, p: TxId, key: string)
    requires Rebuildable(s) && p < |s.txs| && IsPurchase(s.txs[p]) && s.txs[p].status == Completed
    requires RefundCompleted(s, p, key).Ok?
    ensures var s' := RefundCompleted(s, p, key).value;
            Agree(s') && RefsKnown(s'.txs)
  {
    hide Formed, RefundCompleted, UnpaidDraw, FundingRepository, Accepts, MultiLegs, RefundCredits, MovesMoney,
      MoneyEntries, Rebuilt, Grows, Skipped, KeyKnown, MarkerKnown, RefsKnown, ReceivableLegs, RowOk, Returned,
      CancelPlan;
    FormedTables(s);
    FormedRow(s, p);
    CompletedCanBeRefunded(s, p);
    RefundRows(s, p, key);
    RefundedTables(s, p, key);
    var s' := RefundCompleted(s, p, key).value;
    var n := |s.txs| + |Returned(s, p)|;
    var debit := [Movement(Own(s, s.txs[p].to.value), s.txs[p].amount)];
    var posted := Entry(n, MultiLegs(debit, RefundCredits(s, p)));
    RefundRowsGrow(s, s', p, key);
    AmountPositive(s, p);
    MultiIsMoney(n, debit, RefundCredits(s, p));
    RefundedStillRebuilt(s, s', p, key);
    RefundRebuilt(s, s', p, key);
    var tracked := if UnpaidDraw(s, p) == 0 || !HasPlan(s.installments, p) then []
                   else [Entry(p, ReceivableLegs(Own(s, s.txs[p].from.value), -UnpaidDraw(s, p)))];
    TrackingIsNoMoney(p, Own(s, s.txs[p].from.value), -UnpaidDraw(s, p));
    assert s.journal + [] == s.journal;
    NotAChild(s, p);
    PurchaseNotSkipped(s, p);
    RefundClosing(s, s', p, n, tracked, posted);
  }

  lemma {:induction false} PurchaseNotSkipped(s: State, p: TxId)
    requires p < |s.txs| && s.txs[p].kind == Purchase && !IsChildLeg(s.txs[p].key)
    ensures !Skipped(s.txs[p])
  {
  }

  lemma {:induction false} RefundClosing(s: State, s': State, p: TxId, n: TxId, tracked: seq<Entry>, posted: Entry)
    requires Rebuildable(s) && p < |s.txs| <= n && |s'.txs| == n + 1 && Grows(s, s', {p}) && DoneKept(s, s', {p})
    requires forall i :: |s.txs| <= i < |s'.txs| ==> KeyKnown(s'.txs, i) && MarkerKnown(s'.txs, i)
    requires forall i :: |s.txs| <= i < n ==> Skipped(s'.txs[i])
    requires s'.journal == s.journal + tracked + [posted] && posted.tx == n && MovesMoney(posted)
    requires forall k :: 0 <= k < |tracked| ==> !MovesMoney(tracked[k]) && tracked[k].tx == p
    requires Rebuilt(s', p) == Rebuilt(s, p) && Rebuilt(s', n) == [posted] && !IsPurchase(s'.txs[n])
    requires IsPurchase(s.txs[p]) && s.txs[p].status == Completed && !Skipped(s.txs[p])
    ensures Agree(s') && RefsKnown(s'.txs)
  {
    hide Formed, MovesMoney, MoneyEntries, Rebuilt, Grows, DoneKept, Skipped, KeyKnown, MarkerKnown, RefsKnown;
    forall id: TxId ensures MoneyEntries(s'.journal, id) == MoneyEntries(s.journal, id)
        + if id == n then [posted] else [] {
      TouchedEntries(s.journal, tracked, posted, n, id);
    }
    assert AgreesAt(s, p);
    assert MoneyEntries(s.journal, p) + [] == MoneyEntries(s.journal, p);
    forall id | |s.txs| <= id < |s'.txs| ensures AgreesAt(s', id) {
      NothingPosted(s, id);
      if id < n {
        ChildIsSkipped(s', id);
      }
    }
    GrowsAgrees(s, s', {p});
  }

  lemma {:induction false} AmountPositive(s: State, p: TxId)
    requires p < |s.txs| && RowOk(|s.wallets|, |s.installments|, s.txs, p)
    ensures s.txs[p].amount > 0
  {
  }

  // ---- Payout sweeps ----

  predicate PaysPlainly(s: State, payer: Payer) {
    PayerOk(s, payer) && s.wallets[payer.wallet].repository.None?
  }

  lemma {:induction false} PayFeeAgrees(s: State, payer: Payer, fee: int, key: Key, purchase: Option<TxId>)
    requires Rebuildable(s) && PaysPlainly(s, payer) && payer.feeRepository.Some?
    requires PayOutFee(s, payer, fee, key, purchase).Ok?
    ensures var s' := PayOutFee(s, payer, fee, key, purchase).value;
            Agree(s') && RefsKnown(s'.txs)
  {
    hide Formed, RefsKnown, Agree, Accepts, MovesMoney, WalletToWallet;
    var w, target := payer.wallet, payer.feeRepository.value;
    var row := Row(Transfer, Completed, Some(w), Some(target), fee, PayoutFee(key)).(related := purchase);
    var s1 := s.(txs := s.txs + [row]);
    var s' := PayOutFee(s, payer, fee, key, purchase).value;
    var entry := Entry(|s.txs|, WalletToWallet(Own(s, w), Own(s, target), fee));
    WalletsAreMoney(|s.txs|, Own(s, w), Own(s, target), fee);
    SameHandler(s1, s', |s.txs|);
    assert HandleTransfer(s1, |s.txs|) == [entry];
    RowWithEntries(s, s', row, [entry]);
  }

  lemma {:induction false} PayNetAgrees(s: State, payer: Payer, net: int, key: Key, purchase: Option<TxId>)
    requires Rebuildable(s) && PaysPlainly(s, payer) && !IsChildKey(key)
    requires PayNet(s, payer, net, key, purchase).Ok?
    ensures var s' := PayNet(s, payer, net, key, purchase).value;
            Agree(s') && RefsKnown(s'.txs)
  {
    hide Formed, RefsKnown, Agree, Accepts, MovesMoney, Against;
    var w := payer.wallet;
    var cleared := payer.rail.None? || |s.txs| !in payer.failed;
    var row := Row(Withdraw, Completed, Some(w), None, net, key).(related := purchase, cleared := cleared);
    var s1 := s.(txs := s.txs + [row]);
    var s' := PayNet(s, payer, net, key, purchase).value;
    var entry := Entry(|s.txs|, Against(Own(s, w), -net, CashAccount(cleared)));
    AgainstIsMoney(|s.txs|, Own(s, w), -net, CashAccount(cleared));
    SameHandler(s1, s', |s.txs|);
    assert HandleWithdraw(s1, |s.txs|) == [entry];
    RowWithEntries(s, s', row, [entry]);
  }

  lemma {:induction false} PayOutAgrees(s: State, payer: Payer, amount: int, key: Key, purchase: Option<TxId>)
    requires Rebuildable(s) && PaysPlainly(s, payer) && !IsChildKey(key)
    requires PayOut(s, payer, amount, key, purchase).Ok?
    ensures Rebuildable(PayOut(s, payer, amount, key, purchase).value)
  {
    hide Formed, RefsKnown, Agree, PayOutFee, PayNet, SameLines;
    PayOutGrows(s, payer, amount, key, purchase);
    var fee := FeeOfPayout(payer, amount);
    var s1 := if fee > 0 then PayOutFee(s, payer, fee, key, purchase).value else s;
    if fee > 0 {
      FeeGrows(s, payer, fee, key, purchase);
      PayFeeAgrees(s, payer, fee, key, purchase);
    }
    if amount > fee {
      PayNetAgrees(s1, payer, amount - fee, key, purchase);
    }
  }

  lemma {:induction false} PaySlicesAgree(s: State, payer: Payer, p: TxId, slices: seq<int>)
    requires Rebuildable(s) && PaysPlainly(s, payer) && PaySlices(s, payer, p, slices).Ok?
    ensures Rebuildable(PaySlices(s, payer, p, slices).value)
  {
    hide Formed, RefsKnown, Agree, PayOut, SameLines;
    if |slices| > 0 {
      var n := |slices| - 1;
      PaySlicesAgree(s, payer, p, slices[..n]);
      PaySlicesGrow(s, payer, p, slices[..n]);
      PayOutAgrees(PaySlices(s, payer, p, slices[..n]).value, payer, slices[n],
                   SweepSlice(payer.wallet, p, n, payer.minute), Some(p));
    }
  }

  lemma {:induction false} MarkAgrees(s: State, p: TxId)
    requires Rebuildable(s) && p < |s.txs| && s.txs[p].kind == Purchase && s.txs[p].status == Completed
    ensures Rebuildable(Mark(s, p))
  {
    hide Formed, MoneyEntries;
    MarkGrows(s, p);
    GrowsAgrees(s, Mark(s, p), {});
  }

  lemma {:induction false} SweepPurchasesAgree(s: State, payer: Payer, n: nat, balance: int)
    requires Rebuildable(s) && PaysPlainly(s, payer) && n <= |s.txs|
    requires SweepPurchases(s, payer, n, balance).Ok?
    ensures Rebuildable(SweepPurchases(s, payer, n, balance).value.state)
  {
    hide Formed, RefsKnown, Agree, PaySlices, SlicesOf, SweptUpTo;
    if n > 0 {
      var p := n - 1;
      SweepPurchasesAgree(s, payer, p, balance);
      SweepingGrows(s, payer, p, balance);
      var done := SweepPurchases(s, payer, p, balance).value;
      var slices := SlicesOf(s, p, payer.wallet);
      if Unsettled(s.txs[p], payer.wallet) && Sum(slices, Identity()) <= done.remaining {
        PaySlicesAgree(done.state, payer, p, slices);
        var s1 := PaySlices(done.state, payer, p, slices).value;
        PaySlicesGrow(done.state, payer, p, slices);
        MarkAgrees(s1, p);
      }
    }
  }

  lemma {:induction false} SweepAgrees(s: State, w: WalletId, minute: nat, failed: set<TxId>)
    requires Rebuildable(s) && w < |s.wallets| && s.wallets[w].repository.None? && SweepWallet(s, w, minute, failed).Ok?
    ensures Rebuildable(SweepWallet(s, w, minute, failed).value)
  {
    hide Formed, RefsKnown, Agree, SweepPurchases, PayOut, SplitMode;
    if Balance(s.journal, w) > 0 {
      var payer := PayerFor(s, w, minute, failed).value;
      if !SplitMode(s, w) {
        PayOutAgrees(s, payer, Balance(s.journal, w), Sweep(w, minute), None);
      } else {
        SweepPurchasesAgree(s, payer, |s.txs|, Balance(s.journal, w));
      }
    }
  }

  // ---- Every request ----

  /** The histories the script can rebuild: no deposit on a repository-backed wallet, no write-off without
      a routed slice, no payout sweep of a repository-backed wallet, no top-up that completes a purchase
      which was refunded, and no adjustment that is taken for the owner of another one's slice. */
  predicate RebuildSafe(s: State, op: Op) {
    match op
    case OpVerify(t, paid, now, today) =>
      t < |s.txs| ==>
        && (s.txs[t].completes.Some? && (paid || s.txs[t].status == Completed) && TopUpSettles(s, t) ==>
              !HasMarker(s.txs, s.txs[t].completes.value))
        && (paid && s.txs[t].status == Awaiting && s.txs[t].kind == Deposit && !IsRepayment(s.txs[t])
            && s.txs[t].to.Some? && s.txs[t].to.value < |s.wallets| ==>
              s.wallets[s.txs[t].to.value].repository.None?)
    case OpAdjust(w, amount, key) => !Foreign(s.txs, key)
    case OpWriteOff(w, quit, key) => RoutesASlice(s, w, quit) && !Foreign(s.txs, key) && !TakesOver(s, w, quit, key)
    case OpSweep(w, minute, failed) => w < |s.wallets| ==> s.wallets[w].repository.None?
    case _ => true
  }

  lemma {:induction false} TopUpAgrees(s: State, t: TxId, today: Date)
    requires Rebuildable(s) && t < |s.txs| && s.txs[t].completes.Some? && OnCalendar(today)
        && CompleteTopUp(s, t, today).Ok?
    requires s.txs[t].status != Reversed
    requires TopUpSettles(s, t) ==> !HasMarker(s.txs, s.txs[t].completes.value)
    ensures var s' := CompleteTopUp(s, t, today).value;
            Agree(s') && RefsKnown(s'.txs)
  {
    hide Formed, RefsKnown, Agree, Settle, LandTopUp, SameLines;
    var p := s.txs[t].completes.value;
    FormedRow(s, t);
    FormedRow(s, p);
    var user, currency := s.wallets[s.txs[p].from.value].user, s.wallets[s.txs[p].from.value].typ.currency;
    LandTopUpGrows(s, t, user, currency);
    LandTopUpAgrees(s, t, user, currency);
    if TopUpSettles(s, t) {
      FormedTables(s);
      TopUpReady(s, t, today);
      var (s1, support) := LandTopUp(s, t, user, currency).value;
      SettleAgrees(s1, p, Some(Funding(support, s.txs[t].amount)), today);
    }
  }

  lemma {:induction false} VerifyAgrees(s: State, t: TxId, paid: bool, now: int, today: Today)
    requires Rebuildable(s) && RebuildSafe(s, OpVerify(t, paid, now, today)) && Verify(s, t, paid, now, today).Ok?
    ensures var s' := Verify(s, t, paid, now, today).value;
            Agree(s') && RefsKnown(s'.txs)
  {
    hide Formed, RefsKnown, Agree, Settle, CompleteTopUp, ReceiveMoney;
    FormedRow(s, t);
    if s.txs[t].completes.Some? && (paid || s.txs[t].status == Completed) {
      TopUpAgrees(s, t, today);
    } else if s.txs[t].status == Awaiting && paid {
      if s.txs[t].kind == Purchase {
        SettleAgrees(s, t, None, today);
      } else if IsRepayment(s.txs[t]) {
        RepaymentAgrees(s, t);
      } else {
        PlainDepositAgrees(s, t);
      }
    }
  }

  lemma {:induction false} TopUpOpenedAgrees(s: State, p: TxId, shortfall: int, expires: int)
    requires Rebuildable(s) && OpenTopUp(s, p, shortfall, expires).Ok?
    ensures var s' := OpenTopUp(s, p, shortfall, expires).value;
            Agree(s') && RefsKnown(s'.txs)
  {
    hide Formed, MoneyEntries;
    var s' := OpenTopUp(s, p, shortfall, expires).value;
    if s' != s {
      NothingPosted(s, |s.txs|);
      assert Handle(s', |s.txs|) == [];
      GrowsAgrees(s, s', {});
    }
  }

  lemma {:induction false} GrantAgrees(s: State, user: nat, r: WalletId, person: nat, typ: WalletType, amount: int,
      key: string)
    requires Rebuildable(s) && GrantCredit(s, user, r, person, typ, amount, key).Ok?
    ensures var s' := GrantCredit(s, user, r, person, typ, amount, key).value;
            Agree(s') && RefsKnown(s'.txs)
  {
    hide Formed, RefsKnown, Agree;
    QuietRow(s, GrantCredit(s, user, r, person, typ, amount, key).value, GrantRow(r, |s.wallets|, amount, key));
  }

  lemma {:induction false} ReclaimAgrees(s: State, w: WalletId, key: string)
    requires Rebuildable(s) && CloseAndReclaim(s, w, key).Ok?
    ensures var s' := CloseAndReclaim(s, w, key).value;
            Agree(s') && RefsKnown(s'.txs)
  {
    hide Formed, RefsKnown, Agree;
    var s' := CloseAndReclaim(s, w, key).value;
    if s.wallets[w].virtualAmount > 0 {
      QuietRow(s, s',
          Row(Virtual, Completed, Some(w), s.wallets[w].repository, s.wallets[w].virtualAmount, Client(key)));
    } else {
      NothingRead(s, s');
    }
  }

  lemma {:induction false} DroppedAgrees(s: State, id: TxId)
    requires Rebuildable(s) && id < |s.txs| && s.txs[id].status == Awaiting
    ensures Agree(SetStatus(s, id, Reversed)) && RefsKnown(SetStatus(s, id, Reversed).txs)
  {
    hide Formed, RefsKnown, Agree;
    FormedRow(s, id);
    StillEmpty(s, SetStatus(s, id, Reversed), id);
  }

  lemma {:induction false} AttachAgrees(s: State, id: TxId, user: nat, w: WalletId)
    requires Rebuildable(s) && AttachWallet(s, id, user, w).Ok?
    ensures var s' := AttachWallet(s, id, user, w).value;
            Agree(s') && RefsKnown(s'.txs)
  {
    hide Formed, RefsKnown, Agree;
    FormedRow(s, id);
    var s' := AttachWallet(s, id, user, w).value;
    if s.txs[id].from.None? {
      StillEmpty(s, s', id);
    }
  }

  lemma {:induction false} RefundOpAgrees(s: State, user: nat, p: TxId, key: string)
    requires Rebuildable(s) && Refund(s, user, p, key).Ok?
    ensures var s' := Refund(s, user, p, key).value;
            Agree(s') && RefsKnown(s'.txs)
  {
    hide Formed, RefsKnown, Agree, RefundCompleted;
    FormedRow(s, p);
    if s.txs[p].status == Awaiting {
      DroppedAgrees(s, p);
    } else {
      RefundAgrees(s, p, key);
    }
  }

  /** The row a request opened, if that is all it did. */
  ghost predicate Opens(s: State, s': State) {
    && |s'.txs| == |s.txs| + 1 && s'.txs == s.txs + [s'.txs[|s.txs|]] && s'.journal == s.journal
        && s'.wallets == s.wallets
    && var t := s'.txs[|s.txs|];
       && Insert(s, t).Ok? && t.status == Awaiting && (t.kind == Deposit || t.kind == Purchase)
       && t.related.None? && !IsChildKey(t.key)
  }

  lemma {:induction false} ChargeOpens(s: State, to: WalletId, amount: int, splits: Option<seq<SplitDto>>,
      expires: int, key: string)
    requires OpenCharge(s, to, amount, splits, expires, key).Ok?
    ensures Opens(s, OpenCharge(s, to, amount, splits, expires, key).value)
  {
  }

  lemma {:induction false} RepaymentOpens(s: State, user: nat, i: nat, expires: int, key: string)
    requires OpenRepayment(s, user, i, expires, key).Ok?
    ensures Opens(s, OpenRepayment(s, user, i, expires, key).value)
  {
  }

  lemma {:induction false} CollectionOpens(s: State, w: WalletId, quit: bool, expires: int, key: string)
    requires OpenCollection(s, w, quit, expires, key).Ok?
    ensures Opens(s, OpenCollection(s, w, quit, expires, key).value)
  {
  }

  lemma {:induction false} DepositOpens(s: State, user: nat, w: WalletId, amount: int, expires: int, key: string)
    requires OpenDeposit(s, user, w, amount, expires, key).Ok?
    ensures Opens(s, OpenDeposit(s, user, w, amount, expires, key).value)
  {
  }

  lemma {:induction false} PurchaseOpens(s: State, user: nat, from: WalletId, to: WalletId, amount: int, expires: int,
      key: string)
    requires OpenPurchase(s, user, from, to, amount, expires, key).Ok?
    ensures Opens(s, OpenPurchase(s, user, from, to, amount, expires, key).value)
  {
  }

  /** Requests that only insert a PENDING row with a key of its own. */
  lemma {:induction false} OpenedAgrees(s: State, s': State)
    requires Rebuildable(s) && Opens(s, s')
    ensures Agree(s') && RefsKnown(s'.txs)
  {
    hide Formed, RefsKnown, Agree;
    QuietRow(s, s', s'.txs[|s.txs|]);
  }

  predicate OnlyOpens(op: Op) {
    op.OpDeposit? || op.OpPurchase? || op.OpCharge? || op.OpRepay? || op.OpCollect?
  }

  lemma {:induction false} OpeningAgrees(s: State, op: Op)
    requires Rebuildable(s) && OnlyOpens(op) && Step(s, op).Ok?
    ensures Agree(Step(s, op).value) && RefsKnown(Step(s, op).value.txs)
  {
    hide Formed, RefsKnown, Agree, Opens, OpenDeposit, OpenPurchase, OpenCharge, OpenRepayment, OpenCollection;
    match op {
      case OpDeposit(user, w, amount, expires, key) => DepositOpens(s, user, w, amount, expires, key);
      case OpPurchase(user, from, to, amount, expires, key) => PurchaseOpens(s, user, from, to, amount, expires, key);
      case OpCharge(to, amount, splits, expires, key) => ChargeOpens(s, to, amount, splits, expires, key);
      case OpRepay(user, i, expires, key) => RepaymentOpens(s, user, i, expires, key);
      case OpCollect(w, quit, expires, key) => CollectionOpens(s, w, quit, expires, key);
    }
    OpenedAgrees(s, Step(s, op).value);
  }

  predicate OnlyFlags(op: Op) {
    op.OpClose? || op.OpReopen? || op.OpPenalties? || op.OpDueCheck? || op.OpDefaults?
  }

  lemma {:induction false} FlaggingAgrees(s: State, op: Op)
    requires Rebuildable(s) && OnlyFlags(op) && Step(s, op).Ok?
    ensures Agree(Step(s, op).value) && RefsKnown(Step(s, op).value.txs)
  {
    hide Formed, RefsKnown, Agree, TooLate, AccrueRow, DueRow;
    NothingRead(s, Step(s, op).value);
  }

  lemma {:induction false} ExpiredAgrees(s: State, id: TxId)
    requires Rebuildable(s) && ExpirePending(s, id).Ok?
    ensures Agree(ExpirePending(s, id).value) && RefsKnown(ExpirePending(s, id).value.txs)
  {
    hide Formed, RefsKnown, Agree;
    DroppedAgrees(s, id);
  }

  lemma {:induction false} StepAgrees(s: State, op: Op)
    requires Rebuildable(s) && RebuildSafe(s, op) && Step(s, op).Ok?
    ensures Agree(Step(s, op).value) && RefsKnown(Step(s, op).value.txs)
  {
    hide Formed, RefsKnown, Agree, RebuildSafe, WithdrawFrom, TransferTo, Adjust, Verify, WriteOff, GrantCredit,
      CloseAndReclaim, Refund, SweepWallet, OpenTopUp, AttachWallet, ExpirePending, OpenDeposit, OpenPurchase,
      OpenCharge, OpenRepayment, OpenCollection, CloseWallet, ReopenWallet, ApplyPenalties, CheckDue;
    match op
    case OpWithdraw(user, w, amount, cleared, key) => WithdrawAgrees(s, user, w, amount, cleared, key);
    case OpTransfer(user, from, to, amount, key) => TransferAgrees(s, user, from, to, amount, key);
    case OpAdjust(w, amount, key) => AdjustSafeAgrees(s, w, amount, key);
    case OpAttach(tx, user, w) => AttachAgrees(s, tx, user, w);
    case OpTopUp(p, shortfall, expires) => TopUpOpenedAgrees(s, p, shortfall, expires);
    case OpExpire(tx) => ExpiredAgrees(s, tx);
    case OpVerify(tx, paid, now, today) => VerifyAgrees(s, tx, paid, now, today);
    case OpWriteOff(w, quit, key) => WriteOffSafeAgrees(s, w, quit, key);
    case OpGrant(user, r, person, typ, amount, key) => GrantAgrees(s, user, r, person, typ, amount, key);
    case OpReclaim(w, key) => ReclaimAgrees(s, w, key);
    case OpRefund(user, tx, key) => RefundOpAgrees(s, user, tx, key);
    case OpSweep(w, minute, failed) => SweepSafeAgrees(s, w, minute, failed);
    case _ => if OnlyOpens(op) { OpeningAgrees(s, op); } else { FlaggingAgrees(s, op); }
  }

  lemma {:induction false} AdjustSafeAgrees(s: State, w: WalletId, amount: int, key: string)
    requires Rebuildable(s) && RebuildSafe(s, OpAdjust(w, amount, key)) && Adjust(s, w, amount, key).Ok?
    ensures Agree(Adjust(s, w, amount, key).value) && RefsKnown(Adjust(s, w, amount, key).value.txs)
  {
    hide Formed, RefsKnown, Agree, Adjust;
    AdjustAgrees(s, w, amount, key);
  }

  lemma {:induction false} WriteOffSafeAgrees(s: State, w: WalletId, quit: bool, key: string)
    requires Rebuildable(s) && RebuildSafe(s, OpWriteOff(w, quit, key)) && WriteOff(s, w, quit, key).Ok?
    ensures Agree(WriteOff(s, w, quit, key).value) && RefsKnown(WriteOff(s, w, quit, key).value.txs)
  {
    hide Formed, RefsKnown, Agree, WriteOff, RoutesASlice, Foreign, TakesOver;
    WriteOffAgrees(s, w, quit, key);
  }

  lemma {:induction false} SweepSafeAgrees(s: State, w: WalletId, minute: nat, failed: set<TxId>)
    requires Rebuildable(s) && RebuildSafe(s, OpSweep(w, minute, failed)) && SweepWallet(s, w, minute, failed).Ok?
    ensures Agree(SweepWallet(s, w, minute, failed).value) && RefsKnown(SweepWallet(s, w, minute, failed).value.txs)
  {
    hide Formed, RefsKnown, Agree, SweepPurchases, PayOut, SplitMode, PayerFor;
    SweepAgrees(s, w, minute, failed);
  }

  predicate RebuildSafeRun(s: State, ops: seq<Op>) {
    |ops| > 0 ==> RebuildSafeRun(s, ops[..|ops| - 1]) && RebuildSafe(Run(s, ops[..|ops| - 1]), ops[|ops| - 1])
  }

  lemma {:induction false} RunAgrees(s: State, ops: seq<Op>)
    requires Rebuildable(s) && RebuildSafeRun(s, ops)
    ensures Rebuildable(Run(s, ops))
  {
    hide Formed, RefsKnown, Agree, Step, RebuildSafe;
    if |ops| > 0 {
      var init, op := ops[..|ops| - 1], ops[|ops| - 1];
      RunAgrees(s, init);
      var s1 := Run(s, init);
      if Step(s1, op).Ok? {
        StepAgrees(s1, op);
        StepGrows(s1, op);
      }
    }
  }

  lemma {:induction false} FreshIsFormed(s: State)
    requires Fresh(s)
    ensures Formed(s)
  {
  }

  /** Over every history the script can rebuild, and whichever part of it was already live: the backfill
      gives every wallet its live balance, and so does any number of runs of which one goes to the end. */
  lemma {:induction false} BackfillAgreesAlways(s: State, ops: seq<Op>, live: set<TxId>, stops: seq<nat>, w: WalletId)
    requires Fresh(s) && RebuildSafeRun(s, ops)
    requires var s' := Run(s, ops);
             (forall k :: 0 <= k < |stops| ==> stops[k] <= |s'.txs|) && Furthest(stops) == |s'.txs|
    ensures var s' := Run(s, ops);
            && Balance(FillRepeatedly(s', LivePart(s'.journal, live), stops), w) == Balance(s'.journal, w)
            && (forall id :: 0 <= id < |s'.txs| ==>
                  MoneyEntries(FillRepeatedly(s', LivePart(s'.journal, live), stops), id)
                      == MoneyEntries(s'.journal, id))
  {
    hide Formed, RebuildSafe, Run, MoneyEntries, Fill, FillRepeatedly;
    FreshIsFormed(s);
    RunAgrees(s, ops);
    var s' := Run(s, ops);
    RunsAddUp(s', LivePart(s'.journal, live), stops);
    BackfillRestoresBalances(s', live, w);
    forall id | 0 <= id < |s'.txs|
      ensures MoneyEntries(Fill(s', LivePart(s'.journal, live), |s'.txs|), id) == MoneyEntries(s'.journal, id)
    {
      FilledEntries(s', live, |s'.txs|, id);
    }
  }
}
