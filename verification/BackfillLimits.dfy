/** Where the backfill goes wrong, and by how much: after a deposit on a repository-backed wallet, a
    write-off that routes no slice, a payout sweep of a repository-backed wallet, a top-up that completes
    a purchase which was refunded, and adjustments that are taken for the owner of another one's slice. */
module BackfillLimits {
  import opened Common
  import opened Sums
  import opened Ledger
  import opened Installments
  import opened Settlement
  import opened Bank
  import opened BankInvariant
  import opened CreditLines
  import opened MoneyMoves
  import opened Purchases
  import opened Repayments
  import opened Payouts
  import opened History
  import opened Backfill
  import opened BackfillAgreement
  import opened BackfillRuns
  import opened Keys

  // ---- Live less rebuilt, row by row ----

  /** What a wallet has live, less what a backfill from scratch gives it. */
  function Gap(s: State, w: WalletId): int {
    Balance(s.journal, w) - Balance(Fill(s, [], |s.txs|), w)
  }

  function RebuiltWeight(s: State, id: TxId, w: WalletId): int
    requires id < |s.txs|
  {
    Sum(Rebuilt(s, id), OverLegs(BalanceIn(w)))
  }

  function RowGap(s: State, id: TxId, w: WalletId): int
    requires id < |s.txs|
  {
    RowWeight(s.journal, id, w) - RebuiltWeight(s, id, w)
  }

  function GapTotal(s: State, n: nat, w: WalletId): int
    requires n <= |s.txs|
  {
    if n == 0 then 0 else GapTotal(s, n - 1, w) + RowGap(s, n - 1, w)
  }

  lemma {:induction false} FilledTotal(s: State, n: nat, w: WalletId)
    requires n <= |s.txs|
    ensures Balance(Fill(s, [], n), w) == RowsWeight(s.journal, n, w) - GapTotal(s, n, w)
  {
    hide Rebuilt, HasEntry, RowWeight, Fill;
    if n == 0 {
      FillStep(s, 0);
    } else {
      FilledTotal(s, n - 1, w);
      FillStep(s, n);
      SumConcat(Fill(s, [], n - 1), Rebuilt(s, n - 1), OverLegs(BalanceIn(w)));
    }
  }

  /** From scratch, every row gets its own entries. */
  lemma {:induction false} FillStep(s: State, n: nat)
    requires n <= |s.txs|
    ensures Fill(s, [], n) == if n == 0 then [] else Fill(s, [], n - 1) + Rebuilt(s, n - 1)
  {
    hide Rebuilt;
    if n > 0 {
      FilledRows(s, [], n - 1, n - 1);
    }
  }

  lemma {:induction false} GapIsTotal(s: State, w: WalletId)
    requires TxsBelow(s.journal, |s.txs|)
    ensures Gap(s, w) == GapTotal(s, |s.txs|, w)
  {
    hide Fill, GapTotal, RowsWeight;
    FilledTotal(s, |s.txs|, w);
    BalanceByRow(s.journal, |s.txs|, w);
  }

  lemma {:induction false} OneRowOff(s: State, n: nat, t: TxId, w: WalletId)
    requires n <= |s.txs| && forall id :: 0 <= id < n && id != t ==> AgreesAt(s, id)
    ensures GapTotal(s, n, w) == if t < n then RowGap(s, t, w) else 0
  {
    hide RebuiltWeight, RowWeight;
    if n > 0 {
      OneRowOff(s, n - 1, t, w);
      if n - 1 != t {
        AgreeingRow(s, n - 1, w);
      }
    }
  }

  lemma {:induction false} AgreeingRow(s: State, id: TxId, w: WalletId)
    requires id < |s.txs| && AgreesAt(s, id)
    ensures RowGap(s, id, w) == 0
  {
    hide Rebuilt, MoneyEntries;
  }

  lemma {:induction false} AgreeNoGap(s: State, w: WalletId)
    requires Agree(s)
    ensures Gap(s, w) == 0
  {
    hide Gap, AgreesAt;
    GapIsTotal(s, w);
    OneRowOff(s, |s.txs|, |s.txs|, w);
  }

  /** All rows but one are rebuilt as posted. */
  lemma {:induction false} OnlyGap(s: State, t: TxId, w: WalletId)
    requires TxsBelow(s.journal, |s.txs|) && t < |s.txs|
    requires forall id :: 0 <= id < |s.txs| && id != t ==> AgreesAt(s, id)
    ensures Gap(s, w) == RowGap(s, t, w)
  {
    hide Gap, AgreesAt, RowGap;
    GapIsTotal(s, w);
    OneRowOff(s, |s.txs|, t, w);
  }

  // ---- Deposits ----

  lemma {:induction false} Landed(s: State, t: TxId)
    requires Rebuildable(s) && t < |s.txs| && !IsRepayment(s.txs[t]) && ReceiveMoney(s, t).Ok?
    requires s.txs[t].to.Some? && s.txs[t].to.value < |s.wallets| && s.wallets[s.txs[t].to.value].repository.Some?
    ensures var s', w := ReceiveMoney(s, t).value, s.txs[t].to.value;
            var r := s.wallets[w].repository.value;
            && r < |s.wallets| && r != w && s.txs[t].amount > 0
            && Accepts(Against(Own(s, r), s.txs[t].amount, BankCash))
            && s' == s.(journal := s.journal + [Entry(t, Against(Own(s, r), s.txs[t].amount, BankCash)),
                                                Entry(t, Against(Own(s, w), s.txs[t].amount, RepositoryAllocations))],
                        txs := s.txs[t := s.txs[t].(status := Completed)])
  {
    hide Formed, Accepts, Against, RefsKnown, Agree;
    FormedTables(s);
    FormedRow(s, t);
    LinkFacts(s.wallets, s.txs[t].to.value);
    var w := s.txs[t].to.value;
    var r := s.wallets[w].repository.value;
    var cash := Entry(t, Against(Own(s, r), s.txs[t].amount, BankCash));
    var mirror := Entry(t, Against(Own(s, w), s.txs[t].amount, RepositoryAllocations));
    assert s.journal + [cash] + [mirror] == s.journal + [cash, mirror];
  }

  /** The script posts the cash on the repository and forgets the wallet's own mirror. */
  lemma {:induction false} LinkedDepositGap(s: State, t: TxId, v: WalletId)
    requires Rebuildable(s) && t < |s.txs| && s.txs[t].kind == Deposit && s.txs[t].status == Awaiting
    requires !IsRepayment(s.txs[t]) && s.txs[t].completes.None? && ReceiveMoney(s, t).Ok?
    requires s.txs[t].to.Some? && s.txs[t].to.value < |s.wallets| && s.wallets[s.txs[t].to.value].repository.Some?
    ensures Gap(ReceiveMoney(s, t).value, v) == if v == s.txs[t].to.value then s.txs[t].amount else 0
  {
    hide Formed, Accepts, Against, ReceiveMoney, RefsKnown, IsChildLeg, MovesMoney, MoneyEntries, Grows, Gap;
    Landed(s, t);
    var s', w := ReceiveMoney(s, t).value, s.txs[t].to.value;
    var r := s.wallets[w].repository.value;
    var cash := Entry(t, Against(Own(s, r), s.txs[t].amount, BankCash));
    var mirror := Entry(t, Against(Own(s, w), s.txs[t].amount, RepositoryAllocations));
    AgainstIsMoney(t, Own(s, r), s.txs[t].amount, BankCash);
    AgainstIsMoney(t, Own(s, w), s.txs[t].amount, RepositoryAllocations);
    OthersAsBefore(s, s', t, [cash, mirror]);
    NotAChild(s, t);
    assert HandleDeposit(s', t) == [cash];
    assert Rebuilt(s', t) == [cash];
    OnlyGap(s', t, v);
    TwoAgainstOne(cash, mirror, v);
    AgainstEffect(Own(s, w), s.txs[t].amount, RepositoryAllocations);
  }

  lemma {:induction false} TwoAgainstOne(a: Entry, b: Entry, v: WalletId)
    ensures Sum([a, b], OverLegs(BalanceIn(v))) - Sum([a], OverLegs(BalanceIn(v))) == Sum(b.legs, BalanceIn(v))
  {
    SumSnoc([a], b, OverLegs(BalanceIn(v)));
    assert [a] + [b] == [a, b];
  }

  /** Completing one PENDING deposit row leaves every other row as it was. */
  lemma {:induction false} OthersAsBefore(s: State, s': State, t: TxId, entries: seq<Entry>)
    requires Rebuildable(s) && t < |s.txs| && s.txs[t].kind == Deposit && s.txs[t].status == Awaiting
    requires s'.txs == s.txs[t := s.txs[t].(status := Completed)] && SameWallets(s.wallets, s'.wallets)
    requires s'.journal == s.journal + entries && EntriesFor(entries, t)
    ensures TxsBelow(s'.journal, |s'.txs|) && MoneyEntries(s'.journal, t) == entries
    ensures forall id :: 0 <= id < |s'.txs| && id != t ==> AgreesAt(s', id)
  {
    hide Formed, MovesMoney, MoneyEntries, Rebuilt, Handle;
    UndecidedIsEmpty(s, t);
    NotAChild(s, t);
    PostedFor(s.journal, entries, t, t);
    assert [] + entries == entries;
    FormedTables(s);
    forall id | 0 <= id < |s'.txs| && id != t ensures AgreesAt(s', id) {
      PostedFor(s.journal, entries, t, id);
      assert MoneyEntries(s.journal, id) + [] == MoneyEntries(s.journal, id);
      UntouchedAgrees(s, s', {t}, id);
    }
  }

  /** A deposit survives a backfill if and only if its wallet has no repository behind it. */
  lemma {:induction false} DepositRebuiltExactly(s: State, t: TxId)
    requires Rebuildable(s) && t < |s.txs| && s.txs[t].kind == Deposit && s.txs[t].status == Awaiting
    requires !IsRepayment(s.txs[t]) && s.txs[t].completes.None? && ReceiveMoney(s, t).Ok?
    ensures s.txs[t].to.Some? && s.txs[t].to.value < |s.wallets|
    ensures (forall v :: Gap(ReceiveMoney(s, t).value, v) == 0) <==> s.wallets[s.txs[t].to.value].repository.None?
  {
    hide Formed, Gap, Agree, RefsKnown, ReceiveMoney;
    ReceivedOn(s, t);
    FormedRow(s, t);
    var s', w := ReceiveMoney(s, t).value, s.txs[t].to.value;
    if s.wallets[w].repository.None? {
      PlainDepositAgrees(s, t);
      forall v ensures Gap(s', v) == 0 {
        AgreeNoGap(s', v);
      }
    } else {
      LinkedDepositGap(s, t, w);
    }
  }

  lemma {:induction false} ReceivedOn(s: State, t: TxId)
    requires t < |s.txs| && ReceiveMoney(s, t).Ok?
    ensures s.txs[t].to.Some? && s.txs[t].to.value < |s.wallets|
  {
  }

  // ---- Write-offs ----

  lemma {:induction false} EntriesBelow(s: State)
    requires Agree(s)
    ensures TxsBelow(s.journal, |s.txs|)
  {
  }

  /** The slices the script finds under the key of an adjustment. */
  function SlicesNamed(s: State, key: string): seq<Movement> {
    SliceLegs(s, OfOverdue(key)) + SliceLegs(s, OfQuit(key))
  }

  /** The entry that debits `r` for them would not balance. */
  predicate Misfit(s: State, key: string, r: WalletId) {
    r < |s.wallets| && exists m :: m in SlicesNamed(s, key) && m.holder.currency != Own(s, r).currency
  }

  lemma {:induction false} NamedFound(s: State, k: Key, key: string)
    requires Absorbs(k, key) && SiblingTo(s, k) != []
    ensures SlicesNamed(s, key) != []
  {
    hide SiblingTo;
    var slice := AbsorbedSlice(k, key);
  }

  /** A key that reads as a slice of `key` is one of the six the script looks up. */
  lemma {:induction false} AbsorbedSlice(k: Key, key: string) returns (slice: Slice)
    requires Absorbs(k, key)
    ensures k == SliceKey(OfOverdue(key), slice) || k == SliceKey(OfQuit(key), slice)
  {
    slice := if k.text == key + Suffix(FeeSlice) then FeeSlice
             else if k.text == key + Suffix(PenaltySlice) then PenaltySlice else UnblockSlice;
  }

  lemma {:induction false} ForeignFound(s: State, i: TxId)
    requires Formed(s) && RefsKnown(s.txs) && i < |s.txs| && (s.txs[i].key.OverdueAbsorb? || s.txs[i].key.QuitAbsorb?)
    ensures SiblingTo(s, s.txs[i].key) != []
  {
    hide Formed;
    FormedTables(s);
    var f := FindKey(s.txs, s.txs[i].key).value;
    assert KeyKnown(s.txs, f);
    SidesOf(|s.wallets|, |s.installments|, s.txs, f);
  }

  lemma {:induction false} NamedExactly(s: State, key: string)
    requires Formed(s) && RefsKnown(s.txs)
    ensures SlicesNamed(s, key) != [] <==> Foreign(s.txs, key)
  {
    hide Formed, RefsKnown, SiblingTo, FindKey;
    if i :| 0 <= i < |s.txs| && Absorbs(s.txs[i].key, key) {
      ForeignFound(s, i);
      NamedFound(s, s.txs[i].key, key);
    } else {
      NoAbsorbYet(s, key);
      forall quit: bool, slice: Slice ensures SiblingTo(s, SliceKey(AbsorbPrefix(quit, key), slice)) == [] {
        assert NoSliceYet(s.txs, AbsorbPrefix(quit, key), slice);
        AbsentIsNothing(s, SliceKey(AbsorbPrefix(quit, key), slice));
      }
      assert AbsorbPrefix(true, key) == OfQuit(key) && AbsorbPrefix(false, key) == OfOverdue(key);
    }
  }

  /** A later state finds at least the slices it found before, and one more if there is one. */
  lemma {:induction false} MoreNamed(s: State, s': State, key: string, k: Key)
    requires Absorbs(k, key) && SiblingTo(s, k) == [] != SiblingTo(s', k)
    requires forall k': Key :: SiblingTo(s, k') != [] ==> SiblingTo(s', k') == SiblingTo(s, k')
    ensures |SlicesNamed(s', key)| > |SlicesNamed(s, key)|
  {
    hide SiblingTo, SliceKey, SliceLegs;
    var slice := AbsorbedSlice(k, key);
    forall prefix: SplitPrefix
      ensures |SliceLegs(s, prefix)| <= |SliceLegs(s', prefix)|
      ensures k == SliceKey(prefix, slice) ==> |SliceLegs(s, prefix)| < |SliceLegs(s', prefix)|
    {
      SliceCount(s, prefix);
      SliceCount(s', prefix);
      FoundAgain(s, s', SliceKey(prefix, FeeSlice));
      FoundAgain(s, s', SliceKey(prefix, PenaltySlice));
      FoundAgain(s, s', SliceKey(prefix, UnblockSlice));
      match slice
      case FeeSlice =>
      case PenaltySlice =>
      case UnblockSlice =>
    }
  }

  lemma {:induction false} FoundAgain(s: State, s': State, k: Key)
    requires SiblingTo(s, k) != [] ==> SiblingTo(s', k) == SiblingTo(s, k)
    ensures |SiblingTo(s, k)| <= |SiblingTo(s', k)| <= 1
    ensures SiblingTo(s, k) == [] != SiblingTo(s', k) ==> |SiblingTo(s, k)| < |SiblingTo(s', k)|
  {
  }

  lemma {:induction false} SliceCount(s: State, prefix: SplitPrefix)
    ensures |SliceLegs(s, prefix)| == |SiblingTo(s, SliceKey(prefix, FeeSlice))|
        + |SiblingTo(s, SliceKey(prefix, PenaltySlice))|
                                      + |SiblingTo(s, SliceKey(prefix, UnblockSlice))|
  {
    hide SiblingTo, SliceKey;
  }

  lemma {:induction false} Unaffected(s: State, row: Tx, key: string)
    requires row.key.Client?
    ensures SlicesNamed(s.(txs := s.txs + [row]), key) == SlicesNamed(s, key)
  {
    hide SiblingTo;
    forall k: Key | !k.Client? ensures SiblingTo(s.(txs := s.txs + [row]), k) == SiblingTo(s, k) {
      SiblingAfterRow(s, row, k);
    }
  }

  lemma {:induction false} RouteNothing(s: State, main: WalletId, parts: seq<Part>, transfer: bool, prefix: SplitPrefix)
    requires Route(s, main, parts, transfer, prefix).Ok? && LegsOf(s, parts) == []
    ensures Route(s, main, parts, transfer, prefix).value.state == s
        && Route(s, main, parts, transfer, prefix).value.legs == []
  {
    hide RouteSlice, SliceLeg;
    if |parts| > 0 {
      RouteNothing(s, main, parts[..|parts| - 1], transfer, prefix);
      var r := Route(s, main, parts[..|parts| - 1], transfer, prefix).value;
      assert SliceLeg(s, parts[|parts| - 1]) == [];
      UnroutedStillAbsent(s, r, main, parts[|parts| - 1], transfer, prefix);
      NoLegAdded(s, r, main, parts[|parts| - 1], transfer, prefix);
    }
  }

  lemma {:induction false} NoLegAdded(s: State, r: Routed, main: WalletId, part: Part, transfer: bool,
      prefix: SplitPrefix)
    requires r.state.wallets == s.wallets && RouteSlice(r, main, part, transfer, prefix).Ok? && SliceLeg(s, part) == []
    ensures RouteSlice(r, main, part, transfer, prefix).value.legs == r.legs
  {
  }

  /** The slices a write-off routes. */
  function RoutedBy(s: State, w: WalletId, quit: bool): seq<Movement>
    requires w < |s.wallets|
  {
    LegsOf(s, OwedParts(s, w, quit))
  }

  /** The write-off up to its entry: the slices are found under their keys, and the row is the last one. */
  ghost predicate Absorbed(s: State, s2: State, w: WalletId, quit: bool, key: string)
    requires w < |s.wallets| && s.wallets[w].repository.Some? && s.wallets[w].repository.value < |s.wallets|
  {
    var r, n, prefix, legs := s.wallets[w].repository.value, |s2.txs| - 1, AbsorbPrefix(quit, key),
        RoutedBy(s, w, quit);
    && Formed(s2) && s2.wallets == s.wallets && |s.txs| <= n && s.txs <= s2.txs
    && s2.txs[n] == Row(Adjustment, Completed, s.wallets[w].repository, None, WrittenOff(s, w, quit), Client(key))
    && s2.journal == s.journal + (if legs == [] then []
                                  else [Entry(n, MultiLegs([Movement(Own(s, r), Sum(legs, MovementAmount()))], legs))])
    && (legs == [] ==> s2.txs == s.txs + [s2.txs[n]])
    && (forall slice: Slice :: SiblingTo(s2, SliceKey(prefix, slice))
          == if LegFor(s, OwedParts(s, w, quit), slice) == [] then SiblingTo(s, SliceKey(prefix, slice))
             else LegFor(s, OwedParts(s, w, quit), slice))
    && (forall slice: Slice :: LegFor(s, OwedParts(s, w, quit), slice) != [] ==> NoSliceYet(s.txs, prefix, slice))
  }

  lemma {:induction false} WriteOffTables(s: State, w: WalletId, quit: bool, key: string) returns (s2: State)
    requires Rebuildable(s) && WriteOff(s, w, quit, key).Ok?
    ensures w < |s.wallets| && s.wallets[w].repository.Some? && s.wallets[w].repository.value < |s.wallets|
    ensures Absorbed(s, s2, w, quit, key) && FindKey(s.txs, Client(key)).None? && WrittenOff(s, w, quit) > 0
    ensures WriteOff(s, w, quit, key) == MarkAllPaid(s2, w, |s2.txs| - 1)
    ensures SlicesFit(s, w, quit)
  {
    hide Formed, SameLines, WriteOff, MarkAllPaid, RefsKnown, Route, IsRouted, LegsOf, LegFor, RepaymentSplit,
      SliceRows, FindKey, OutstandingRows, Agree, SiblingTo, SliceKey, MultiLegs, Accepts, PostAbsorbed, Parts;
    var r, parts;
    r, parts, s2 := AbsorbTables(s, w, quit, key);
    AbsorbGrows(s, w, quit, key, r, parts, s2);
    var main, terms := s.wallets[w].repository.value, s.wallets[w].typ.terms;
    var split := RepaymentSplit(OutstandingRows(s.installments, w));
    var unblockFee := if quit then 0 else terms.unblockFee;
    var total := split.fee + split.penalty + unblockFee;
    var row := Row(Adjustment, Completed, Some(main), None, WrittenOff(s, w, quit), Client(key));
    var prefix, s1 := AbsorbPrefix(quit, key), r.state.(txs := r.state.txs + [row]);
    assert parts == OwedParts(s, w, quit);
    KeyIsNew(r.state, row);
    KeyUnused(s.txs, r.state.txs, Client(key));
    SlicesInOrderParts(terms, split.fee, split.penalty, unblockFee);
    SlicesFound(s, main, parts, true, prefix);
    forall slice: Slice ensures SiblingTo(s2, SliceKey(prefix, slice)) == SiblingTo(r.state, SliceKey(prefix, slice)) {
      SliceIsChild(quit, key, slice);
      SiblingAfterRow(r.state, row, SliceKey(prefix, slice));
      SameLookups(s1, s2);
    }
    NothingNegative(s, w);
    AbsorbedTotal(s.wallets, terms, split.fee, split.penalty, unblockFee, r.unrouted, r.legs);
    if r.legs == [] {
      RouteNothing(s, main, parts, true, prefix);
      NothingAbsorbed(s1, |r.state.txs|, main, total - r.unrouted);
      assert s.journal + [] == s.journal;
    } else {
      PostedAbsorbed(s1, |r.state.txs|, main, total - r.unrouted, r.legs);
      SlicesArePositive(s, parts);
      MultiAccepted(Own(s, main), r.legs);
    }
  }

  lemma {:induction false} NothingAbsorbed(s: State, tx: TxId, r: WalletId, total: int)
    ensures PostAbsorbed(s, tx, r, total, []) == Ok(s)
  {
  }

  lemma {:induction false} SlicesArePositive(s: State, parts: seq<Part>)
    ensures forall i :: 0 <= i < |LegsOf(s, parts)| ==> LegsOf(s, parts)[i].amount > 0
  {
    if |parts| > 0 {
      SlicesArePositive(s, parts[..|parts| - 1]);
    }
  }

  /** What is routed is in the repository's currency: the live entry balances. */
  predicate SlicesFit(s: State, w: WalletId, quit: bool)
    requires w < |s.wallets| && s.wallets[w].repository.Some? && s.wallets[w].repository.value < |s.wallets|
  {
    forall m :: m in RoutedBy(s, w, quit) ==> m.holder.currency == Own(s, s.wallets[w].repository.value).currency
  }

  lemma {:induction false} KeyIsNew(s: State, row: Tx)
    requires Insert(s, row).Ok?
    ensures row.amount > 0 && FindKey(s.txs, row.key).None?
  {
  }

  /** What the adjustment row of a write-off says was given up. */
  function WrittenOff(s: State, w: WalletId, quit: bool): int
    requires w < |s.wallets|
  {
    var split := RepaymentSplit(OutstandingRows(s.installments, w));
    split.fee + split.penalty + if quit then 0 else s.wallets[w].typ.terms.unblockFee
  }

  /** Settling the installments changes nothing of what the script makes of a row. */
  lemma {:induction false} RestoresKeepRows(s: State, s': State, tx: TxId, id: TxId)
    requires Formed(s) && OnlyRestores(s, s', tx) && id < |s.txs|
    ensures MoneyEntries(s'.journal, id) == MoneyEntries(s.journal, id)
    ensures s'.txs[id] == s.txs[id] && Grows(s, s', {})
  {
    hide Formed, MoneyEntries, MovesMoney, SameWallets;
    var more := s'.journal[|s.journal|..];
    assert s'.journal == s.journal + more;
    MoneyConcat(s.journal, more, id);
    NoMoney(more, id);
    assert MoneyEntries(s.journal, id) + [] == MoneyEntries(s.journal, id);
  }

  /** ... nor what a row is rebuilt into. */
  lemma {:induction false} RestoresKeepRebuilt(s: State, s': State, tx: TxId, id: TxId)
    requires Formed(s) && OnlyRestores(s, s', tx) && id < |s.txs|
    ensures id < |s'.txs| && Rebuilt(s', id) == Rebuilt(s, id) && (AgreesAt(s', id) <==> AgreesAt(s, id))
  {
    hide Formed, Rebuilt, MoneyEntries, Grows, RowsOk, BackedOk, OnlyRestores;
    FormedTables(s);
    RestoresKeepRows(s, s', tx, id);
    UntouchedRebuilt(s, s', {}, id);
  }

  /** Agreement is settled by the write-off up to its entry. */
  lemma {:induction false} AgreedByThen(s: State, s2: State, w: WalletId, quit: bool, key: string)
    requires Formed(s2) && |s2.txs| > 0 && WriteOff(s, w, quit, key) == MarkAllPaid(s2, w, |s2.txs| - 1)
    requires WriteOff(s, w, quit, key).Ok?
    ensures OnlyRestores(s2, WriteOff(s, w, quit, key).value, |s2.txs| - 1)
    ensures Agree(WriteOff(s, w, quit, key).value) ==> forall id :: 0 <= id < |s2.txs| ==> AgreesAt(s2, id)
  {
    hide Formed, Rebuilt, MoneyEntries, WriteOff, MarkAllPaid, AgreesAt, OnlyRestores;
    var s', n := WriteOff(s, w, quit, key).value, |s2.txs| - 1;
    MarkAllPaidRestores(s2, w, n);
    if Agree(s') {
      forall id | 0 <= id < |s2.txs| ensures AgreesAt(s2, id) {
        RestoresKeepRebuilt(s2, s', n, id);
      }
    }
  }

  lemma {:induction false} SiblingsKept(s: State, s': State)
    requires Formed(s) && SameWallets(s.wallets, s'.wallets) && s.txs <= s'.txs
    ensures forall k: Key :: SiblingTo(s, k) != [] ==> SiblingTo(s', k) == SiblingTo(s, k)
  {
    hide Formed, SiblingTo, SameWallets, BackedOk, RowsOk;
    FormedTables(s);
    forall k: Key ensures SiblingTo(s, k) != [] ==> SiblingTo(s', k) == SiblingTo(s, k) {
      SiblingKept(s, s', k);
    }
  }

  /** An adjustment that is rebuilt and asked for more slices than before is rebuilt into something else. */
  lemma {:induction false} LongerDiffers(s: State, s': State, id: TxId)
    requires RowsOk(|s.wallets|, |s.installments|, s.txs) && RowsOk(|s'.wallets|, |s'.installments|, s'.txs)
    requires id < |s.txs| && id < |s'.txs| && IsAdjustment(s.txs[id]) && s'.txs[id] == s.txs[id] && Rebuilt(s, id) != []
    requires |AbsorbedLegs(s', s.txs[id])| > |AbsorbedLegs(s, s.txs[id])|
    ensures Rebuilt(s', id) != Rebuilt(s, id)
  {
    hide RowsOk, AbsorbedLegs, Rebuilt, Own, MultiLegs, Against;
    var t := s.txs[id];
    var legs, more := AbsorbedLegs(s, t), AbsorbedLegs(s', t);
    AdjustmentRebuilt(s, id);
    AdjustmentRebuilt(s', id);
    LegsPositive(s, t);
    LegsPositive(s', t);
    if t.from.Some? {
      CollectedEntry(Own(s', t.from.value), more);
      if |legs| > 0 {
        CollectedEntry(Own(s, t.from.value), legs);
      } else {
        PlainLeg(Own(s, t.from.value), -t.amount);
        if t.to.Some? {
          PlainLeg(Own(s, t.to.value), t.amount);
        }
      }
    }
  }

  /** The entry that collects slices has a leg for each and one for the payer, all on wallets. */
  lemma {:induction false} CollectedEntry(h: Holder, legs: seq<Movement>)
    requires |legs| > 0 && forall i :: 0 <= i < |legs| ==> legs[i].amount > 0
    ensures var entry := MultiLegs([Movement(h, Sum(legs, MovementAmount()))], legs);
            |entry| == 1 + |legs| && forall i :: 0 <= i < |entry| ==> entry[i].wallet.Some?
  {
    InOneCurrency(legs, h.currency);
    var debits := [Movement(h, Sum(legs, MovementAmount()))];
    MultiSize(debits, legs);
    OnWallets(debits, -1);
    OnWallets(legs, 1);
  }

  lemma {:induction false} OnWallets(ms: seq<Movement>, sign: int)
    ensures forall i :: 0 <= i < |MovementLegs(ms, sign)| ==> MovementLegs(ms, sign)[i].wallet.Some?
  {
    if |ms| > 0 {
      OnWallets(ms[..|ms| - 1], sign);
    }
  }

  lemma {:induction false} PlainLeg(h: Holder, delta: int)
    ensures |Against(h, delta, LedgerAdjustments)| == 2 && Against(h, delta, LedgerAdjustments)[1].wallet.None?
  {
  }

  // ---- The write-off's own row ----

  lemma {:induction false} UnroutedTables(s: State, s2: State, w: WalletId, quit: bool, key: string)
    requires w < |s.wallets| && s.wallets[w].repository.Some? && s.wallets[w].repository.value < |s.wallets|
    requires Absorbed(s, s2, w, quit, key) && RoutedBy(s, w, quit) == []
    ensures Formed(s2) && |s2.txs| == |s.txs| + 1 && s2.txs == s.txs + [s2.txs[|s.txs|]]
    ensures s2.journal == s.journal && s2.wallets == s.wallets
    ensures s2.txs[|s.txs|]
        == Row(Adjustment, Completed, s.wallets[w].repository, None, WrittenOff(s, w, quit), Client(key))
  {
    hide Formed, RoutedBy, WrittenOff, LegFor, OwedParts, NoSliceYet, SiblingTo;
    assert s.journal + [] == s.journal;
  }

  /** Nothing routed: the row is the only one that can be off, and it moved nothing. */
  lemma {:induction false} UnroutedRow(s: State, s2: State, w: WalletId, quit: bool, key: string)
    requires Rebuildable(s) && w < |s.wallets| && s.wallets[w].repository.Some?
        && s.wallets[w].repository.value < |s.wallets|
    requires Absorbed(s, s2, w, quit, key) && RoutedBy(s, w, quit) == []
    ensures var n, r := |s2.txs| - 1, s.wallets[w].repository.value;
            && MoneyEntries(s2.journal, n) == []
            && Rebuilt(s2, n) == if SlicesNamed(s, key) == []
                then [Entry(n, Against(Own(s, r), -WrittenOff(s, w, quit), LedgerAdjustments))]
                                 else if Misfit(s, key, r) then []
                                 else [Entry(n,
                                     MultiLegs([Movement(Own(s, r), Sum(SlicesNamed(s, key), MovementAmount()))],
                                                          SlicesNamed(s, key)))]
  {
    hide Formed, RefsKnown, SlicesNamed, RoutedBy, MultiLegs, Against, Rebuilt, WrittenOff, MoneyEntries, Absorbed,
      RowsOk, Agree, AbsorbedLegs, Own;
    UnroutedTables(s, s2, w, quit, key);
    var n := |s.txs|;
    var row := s2.txs[n];
    FormedTables(s2);
    EntriesBelow(s);
    NothingPosted(s, n);
    AdjustmentRebuilt(s2, n);
    Unaffected(s, row, key);
    NamedOfRow(s.(txs := s.txs + [row]), s2, row);
    SameOwn(s, s2, s.wallets[w].repository.value);
  }

  lemma {:induction false} SameOwn(s: State, s': State, w: WalletId)
    requires w < |s.wallets| && s'.wallets == s.wallets
    ensures Own(s', w) == Own(s, w)
  {
  }

  /** The script reads only the wallets and the rows. */
  lemma {:induction false} NamedOfRow(s: State, s': State, t: Tx)
    requires t.key.Client? && s'.txs == s.txs && s'.wallets == s.wallets
    ensures AbsorbedLegs(s', t) == SlicesNamed(s, t.key.key)
  {
    hide SliceKey;
    forall k: Key ensures SiblingTo(s', k) == SiblingTo(s, k) {
    }
    hide SiblingTo;
  }

  /** Something routed and a slice of somebody else's as well: the row is rebuilt into another entry. */
  lemma {:induction false} CrowdedRow(s: State, s2: State, w: WalletId, quit: bool, key: string)
    requires Rebuildable(s) && w < |s.wallets| && s.wallets[w].repository.Some?
        && s.wallets[w].repository.value < |s.wallets|
    requires Absorbed(s, s2, w, quit, key) && RoutedBy(s, w, quit) != [] && Foreign(s.txs, key)
    ensures !AgreesAt(s2, |s2.txs| - 1)
  {
    hide Formed, RefsKnown, RoutedBy, MultiLegs, Against, Rebuilt, WrittenOff, MoneyEntries, MovesMoney, AbsorbedLegs,
      Own, NoSliceYet, Agree;
    var n, r, legs := |s2.txs| - 1, s.wallets[w].repository.value, RoutedBy(s, w, quit);
    CrowdedLegs(s, s2, w, quit, key);
    FormedTables(s2);
    EntriesBelow(s);
    var debit := [Movement(Own(s, r), Sum(legs, MovementAmount()))];
    RoutedPositive(s, w, quit);
    InOneCurrency(legs, 0);
    MultiIsMoney(n, debit, legs);
    NothingPosted(s, n);
    MoneySnoc(s.journal, Entry(n, MultiLegs(debit, legs)), n);
    assert MoneyEntries(s2.journal, n) == [Entry(n, MultiLegs(debit, legs))];
    CollectedEntry(Own(s, r), legs);
    AdjustmentRebuilt(s2, n);
    LegsPositive(s2, s2.txs[n]);
    CollectedEntry(Own(s2, r), AbsorbedLegs(s2, s2.txs[n]));
  }

  lemma {:induction false} RoutedPositive(s: State, w: WalletId, quit: bool)
    requires w < |s.wallets|
    ensures forall i :: 0 <= i < |RoutedBy(s, w, quit)| ==> RoutedBy(s, w, quit)[i].amount > 0
  {
    SlicesArePositive(s, OwedParts(s, w, quit));
  }

  lemma {:induction false} RoutedCount(s: State, w: WalletId, quit: bool)
    requires w < |s.wallets|
    ensures |RoutedBy(s, w, quit)| == |LegFor(s, OwedParts(s, w, quit), FeeSlice)|
        + |LegFor(s, OwedParts(s, w, quit), PenaltySlice)|
                                      + |LegFor(s, OwedParts(s, w, quit), UnblockSlice)|
  {
    hide RepaymentSplit, OutstandingRows, LegFor, SliceLeg, LegsOf;
    var split, terms := RepaymentSplit(OutstandingRows(s.installments, w)), s.wallets[w].typ.terms;
    LegsOfThree(s, terms, split.fee, split.penalty, if quit then 0 else terms.unblockFee);
  }

  /** A slice routed is found under its key, and what was found before still is. */
  lemma {:induction false} SliceFoundAfter(s: State, s2: State, w: WalletId, quit: bool, key: string, slice: Slice)
    requires Formed(s) && w < |s.wallets| && s.wallets[w].repository.Some?
        && s.wallets[w].repository.value < |s.wallets|
    requires Absorbed(s, s2, w, quit, key)
    ensures var k := SliceKey(AbsorbPrefix(quit, key), slice);
            && |LegFor(s, OwedParts(s, w, quit), slice)| <= |SiblingTo(s2, k)|
            && (SiblingTo(s, k) != [] ==> |LegFor(s, OwedParts(s, w, quit), slice)| < |SiblingTo(s2, k)|)
  {
    hide Formed, LegFor, OwedParts, SliceKey, RoutedBy, MultiLegs, WrittenOff, FindKey;
    if LegFor(s, OwedParts(s, w, quit), slice) != [] {
      AbsentIsNothing(s, SliceKey(AbsorbPrefix(quit, key), slice));
    }
  }

  /** All that was routed is found, and more. */
  lemma {:induction false} CrowdedLegs(s: State, s2: State, w: WalletId, quit: bool, key: string)
    requires Rebuildable(s) && w < |s.wallets| && s.wallets[w].repository.Some?
        && s.wallets[w].repository.value < |s.wallets|
    requires Absorbed(s, s2, w, quit, key) && Foreign(s.txs, key)
    ensures |s2.txs| > 0 && |AbsorbedLegs(s2, s2.txs[|s2.txs| - 1])| > |RoutedBy(s, w, quit)|
  {
    hide Formed, RefsKnown, Agree, SiblingTo, SliceKey, FindKey, LegFor, OwedParts, SliceLegs, RoutedBy, Absorbed;
    var own, other := AbsorbPrefix(quit, key), AbsorbPrefix(!quit, key);
    RoutedCount(s, w, quit);
    AbsorbedTables(s, s2, w, quit, key);
    SiblingsKept(s, s2);
    var i :| 0 <= i < |s.txs| && Absorbs(s.txs[i].key, key);
    var k := s.txs[i].key;
    ForeignFound(s, i);
    var slice := AbsorbedSlice(k, key);
    assert k == SliceKey(own, slice) || k == SliceKey(other, slice);
    forall sl: Slice
      ensures |LegFor(s, OwedParts(s, w, quit), sl)| <= |SiblingTo(s2, SliceKey(own, sl))|
      ensures k == SliceKey(own, sl) ==> |LegFor(s, OwedParts(s, w, quit), sl)| < |SiblingTo(s2, SliceKey(own, sl))|
    {
      SliceFoundAfter(s, s2, w, quit, key, sl);
    }
    SliceCount(s2, own);
    SliceCount(s2, other);
    match slice {
      case FeeSlice =>
      case PenaltySlice =>
      case UnblockSlice =>
    }
    assert |AbsorbedLegs(s2, s2.txs[|s2.txs| - 1])| == |SliceLegs(s2, own)| + |SliceLegs(s2, other)|;
  }

  lemma {:induction false} AbsorbedTables(s: State, s2: State, w: WalletId, quit: bool, key: string)
    requires w < |s.wallets| && s.wallets[w].repository.Some? && s.wallets[w].repository.value < |s.wallets|
    requires Absorbed(s, s2, w, quit, key)
    ensures Formed(s2) && s2.wallets == s.wallets && s.txs <= s2.txs && |s2.txs| > |s.txs|
    ensures s2.txs[|s2.txs| - 1].key == Client(key) && s2.txs[|s2.txs| - 1].kind == Adjustment
  {
    hide Formed, LegFor, OwedParts, SliceKey, RoutedBy, MultiLegs, WrittenOff, FindKey, SiblingTo;
  }

  // ---- When a write-off is rebuilt ----

  /** No earlier adjustment is asked for one of its slices; and either it routes some and finds no others
      under its key, or it routes none and what it finds there is refused. */
  predicate WriteOffSurvives(s: State, w: WalletId, quit: bool, key: string) {
    && !TakesOver(s, w, quit, key)
    && (w < |s.wallets| && s.wallets[w].repository.Some? ==>
          if RoutesASlice(s, w, quit) then !Foreign(s.txs, key) else Misfit(s, key, s.wallets[w].repository.value))
  }

  lemma {:induction false} RoutedExactly(s: State, w: WalletId, quit: bool)
    requires w < |s.wallets|
    ensures RoutesASlice(s, w, quit) <==> RoutedBy(s, w, quit) != []
  {
    hide RepaymentSplit, OutstandingRows, SomeOpen, LegsOf, Parts;
    var split, terms := RepaymentSplit(OutstandingRows(s.installments, w)), s.wallets[w].typ.terms;
    OpenSliceRoutes(s, terms, split.fee, split.penalty, if quit then 0 else terms.unblockFee);
  }

  /** The adjustment whose slice is taken over is rebuilt with one leg too many. */
  lemma {:induction false} TakenOver(s: State, s2: State, w: WalletId, quit: bool, key: string)
    requires Rebuildable(s) && w < |s.wallets| && s.wallets[w].repository.Some?
        && s.wallets[w].repository.value < |s.wallets|
    requires Absorbed(s, s2, w, quit, key) && TakesOver(s, w, quit, key)
    ensures exists id :: 0 <= id < |s2.txs| && !AgreesAt(s2, id)
  {
    hide Formed, RefsKnown, SiblingTo, SliceKey, FindKey, LegFor, OwedParts, Rebuilt, MoneyEntries, RoutedBy, MultiLegs,
      RowsOk;
    var id, slice: Slice :|
         && 0 <= id < |s.txs| && OwnsSlice(s.txs[id], SliceKey(AbsorbPrefix(quit, key), slice))
         && LegFor(s, OwedParts(s, w, quit), slice) != [] && Rebuilt(s, id) != [];
    var k, t := SliceKey(AbsorbPrefix(quit, key), slice), s.txs[id];
    assert NoSliceYet(s.txs, AbsorbPrefix(quit, key), slice);
    AbsentIsNothing(s, k);
    SiblingsKept(s, s2);
    MoreNamed(s, s2, t.key.key, k);
    NamedOfRow(s, s, t);
    NamedOfRow(s2, s2, t);
    FormedTables(s);
    FormedTables(s2);
    LongerDiffers(s, s2, id);
    EntryElsewhere(s.journal, s2.journal, |s2.txs| - 1, id);
    assert AgreesAt(s, id);
    assert !AgreesAt(s2, id);
  }

  lemma {:induction false} EntryElsewhere(j: Journal, j': Journal, n: TxId, id: TxId)
    requires j <= j' && id != n && forall k :: |j| <= k < |j'| ==> j'[k].tx == n
    ensures MoneyEntries(j', id) == MoneyEntries(j, id)
  {
    hide MovesMoney, MoneyEntries;
    var more := j'[|j|..];
    assert j' == j + more;
    MoneyConcat(j, more, id);
    NoMoney(more, id);
    assert MoneyEntries(j, id) + [] == MoneyEntries(j, id);
  }

  /** Routing nothing and refused: nothing was posted, and nothing is rebuilt. */
  lemma {:induction false} RefusedAgrees(s: State, s2: State, w: WalletId, quit: bool, key: string)
    requires Rebuildable(s) && w < |s.wallets| && s.wallets[w].repository.Some?
        && s.wallets[w].repository.value < |s.wallets|
    requires Absorbed(s, s2, w, quit, key) && FindKey(s.txs, Client(key)).None?
    requires RoutedBy(s, w, quit) == [] && Misfit(s, key, s.wallets[w].repository.value)
    ensures Agree(s2) && RefsKnown(s2.txs)
  {
    hide Formed, RefsKnown, RoutedBy, Rebuilt, WrittenOff, MoneyEntries, LegFor, OwedParts, NoSliceYet, Agree,
      SiblingTo, FindKey, MultiLegs, MovesMoney;
    UnroutedRow(s, s2, w, quit, key);
    RowWithEntries(s, s2, s2.txs[|s2.txs| - 1], []);
  }

  /** A write-off is rebuilt as it was posted if and only if it survives in this sense. */
  lemma {:induction false} WriteOffRebuiltExactly(s: State, w: WalletId, quit: bool, key: string)
    requires Rebuildable(s) && WriteOff(s, w, quit, key).Ok?
    ensures Agree(WriteOff(s, w, quit, key).value) <==> WriteOffSurvives(s, w, quit, key)
  {
    hide Formed, Agree, RefsKnown, WriteOff, RoutesASlice, TakesOver, Foreign, Absorbed, AgreesAt, OnlyRestores,
      MarkAllPaid, RoutedBy, Misfit, FindKey;
    var s2 := WriteOffTables(s, w, quit, key);
    assert Formed(s2) && |s2.txs| > 0 by {
      AbsorbedFormed(s, s2, w, quit, key);
    }
    AgreedByThen(s, s2, w, quit, key);
    RoutedExactly(s, w, quit);
    if TakesOver(s, w, quit, key) {
      TakenOver(s, s2, w, quit, key);
    } else if RoutesASlice(s, w, quit) {
      if Foreign(s.txs, key) {
        CrowdedRow(s, s2, w, quit, key);
      } else {
        WriteOffAgrees(s, w, quit, key);
      }
    } else if Misfit(s, key, s.wallets[w].repository.value) {
      RefusedAgrees(s, s2, w, quit, key);
      RestoresAgree(s2, WriteOff(s, w, quit, key).value, |s2.txs| - 1);
    } else {
      UnroutedDisagrees(s, s2, w, quit, key);
    }
  }

  lemma {:induction false} AbsorbedFormed(s: State, s2: State, w: WalletId, quit: bool, key: string)
    requires w < |s.wallets| && s.wallets[w].repository.Some? && s.wallets[w].repository.value < |s.wallets|
    requires Absorbed(s, s2, w, quit, key)
    ensures Formed(s2) && |s2.txs| > |s.txs|
  {
    hide Formed;
  }

  lemma {:induction false} UnroutedDisagrees(s: State, s2: State, w: WalletId, quit: bool, key: string)
    requires Rebuildable(s) && w < |s.wallets| && s.wallets[w].repository.Some?
        && s.wallets[w].repository.value < |s.wallets|
    requires Absorbed(s, s2, w, quit, key)
    requires RoutedBy(s, w, quit) == [] && !Misfit(s, key, s.wallets[w].repository.value)
    ensures |s2.txs| > 0 && !AgreesAt(s2, |s2.txs| - 1)
  {
    hide Formed, RefsKnown, RoutedBy, Rebuilt, WrittenOff, MoneyEntries, LegFor, OwedParts, NoSliceYet, Agree,
      SiblingTo, Misfit, SlicesNamed;
    UnroutedRow(s, s2, w, quit, key);
  }

  lemma {:induction false} LaterRow(s: State, s2: State, s': State, n: TxId, id: TxId)
    requires TxsBelow(s.journal, |s.txs|) && s2.journal == s.journal && |s2.txs| == n + 1 && |s.txs| <= n
    requires OnlyRestores(s2, s', n) && |s2.txs| <= id < |s'.txs|
    ensures MoneyEntries(s'.journal, id) == [] && Skipped(s'.txs[id])
  {
    hide MovesMoney;
    NoMoney(s'.journal, id);
  }

  /** After a write-off that routed nothing every row but the adjustment is rebuilt as posted. */
  lemma {:induction false} UnroutedRows(s: State, s2: State, s': State, n: TxId, id: TxId)
    requires Rebuildable(s) && Formed(s2) && n == |s.txs| < |s2.txs| && s2.txs == s.txs + [s2.txs[n]]
        && IsParent(s, s2.txs[n])
    requires s2.journal == s.journal && s2.wallets == s.wallets && OnlyRestores(s2, s', n) && id < |s'.txs| && id != n
    ensures AgreesAt(s', id)
  {
    hide Formed, Grows, MoneyEntries, MovesMoney, Rebuilt, RefsKnown, SameWallets, BackedOk, RowsOk, Skipped, IsParent;
    FormedTables(s);
    if id < |s.txs| {
      SameWalletsStay(s.wallets);
      ParentGrows(s, s2, s2.txs[n]);
      UntouchedAgrees(s, s2, {}, id);
      RestoresKeepRebuilt(s2, s', n, id);
    } else {
      LaterRow(s, s2, s', n, id);
      ChildIsSkipped(s', id);
    }
  }

  lemma {:induction false} SameWalletsStay(ws: seq<Wallet>)
    ensures SameWallets(ws, ws)
  {
  }

  lemma {:induction false} RestoredTables(s: State, s': State, tx: TxId)
    requires OnlyRestores(s, s', tx) && tx < |s.txs| && TxsBelow(s.journal, |s.txs|)
    ensures TxsBelow(s'.journal, |s'.txs|) && tx < |s'.txs|
  {
    hide MovesMoney;
  }

  /** The script takes the whole written-off sum out of the repository, which live gave up nothing. */
  lemma {:induction false} UnroutedWriteOffGap(s: State, w: WalletId, quit: bool, key: string, v: WalletId)
    requires Rebuildable(s) && WriteOff(s, w, quit, key).Ok? && !RoutesASlice(s, w, quit) && !Foreign(s.txs, key)
    ensures w < |s.wallets| && s.wallets[w].repository.Some? && WrittenOff(s, w, quit) > 0
    ensures Gap(WriteOff(s, w, quit, key).value, v)
         == if v == s.wallets[w].repository.value then WrittenOff(s, w, quit) else 0
  {
    hide Formed, Agree, RefsKnown, WriteOff, MarkAllPaid, OnlyRestores, RoutesASlice, WrittenOff, Foreign, RoutedBy,
      Absorbed, MoneyEntries, Gap, Rebuilt, Against, FindKey, MultiLegs, AgreesAt, SlicesNamed;
    var s2 := WriteOffTables(s, w, quit, key);
    var n, s', r, total := |s.txs|, WriteOff(s, w, quit, key).value, s.wallets[w].repository.value,
        WrittenOff(s, w, quit);
    RoutedExactly(s, w, quit);
    NamedExactly(s, key);
    UnroutedRow(s, s2, w, quit, key);
    UnroutedTables(s, s2, w, quit, key);
    AgreedByThen(s, s2, w, quit, key);
    forall id | 0 <= id < |s'.txs| && id != n ensures AgreesAt(s', id) {
      UnroutedRows(s, s2, s', n, id);
    }
    EntriesBelow(s);
    UnroutedGap(s, s2, s', Entry(n, Against(Own(s, r), -total, LedgerAdjustments)), v);
    AgainstEffect(Own(s, r), -total, LedgerAdjustments);
  }

  lemma {:induction false} UnroutedGap(s: State, s2: State, s': State, e: Entry, v: WalletId)
    requires Formed(s2) && |s2.txs| == |s.txs| + 1 && s2.journal == s.journal && TxsBelow(s.journal, |s.txs|)
    requires OnlyRestores(s2, s', |s.txs|) && MoneyEntries(s2.journal, |s.txs|) == [] && Rebuilt(s2, |s.txs|) == [e]
    requires forall id :: 0 <= id < |s'.txs| && id != |s.txs| ==> AgreesAt(s', id)
    ensures Gap(s', v) == -EntryWeight(e, v)
  {
    hide Formed, OnlyRestores, MoneyEntries, Gap, Rebuilt, AgreesAt;
    var n := |s.txs|;
    RestoresKeepRows(s2, s', n, n);
    RestoresKeepRebuilt(s2, s', n, n);
    RestoredTables(s2, s', n);
    OnlyGap(s', n, v);
    SumSnoc([], e, OverLegs(BalanceIn(v)));
    assert [] + [e] == [e];
  }

  // ---- Adjustments whose key reads like another's ----

  /** What the script books for a correction: it collects the slices it finds under the key. */
  function Collected(s: State, w: WalletId, amount: int, key: string, v: WalletId): int {
    var legs := SlicesNamed(s, key);
    if amount > 0 || Misfit(s, key, w) then 0
    else Sum(legs, Moved(v)) - if v == w then Sum(legs, MovementAmount()) else 0
  }

  lemma {:induction false} CollectedWeight(id: TxId, h: Holder, legs: seq<Movement>, v: WalletId)
    requires |legs| > 0 && forall i :: 0 <= i < |legs| ==> legs[i].amount > 0
    ensures EntryWeight(Entry(id, MultiLegs([Movement(h, Sum(legs, MovementAmount()))], legs)), v)
         == Sum(legs, Moved(v)) - if v == h.id then Sum(legs, MovementAmount()) else 0
  {
    hide MultiLegs;
    var debits := [Movement(h, Sum(legs, MovementAmount()))];
    MultiEffect(debits, legs);
    InOneCurrency(legs, h.currency);
    SumSnoc([], debits[0], Moved(v));
    assert [] + [debits[0]] == debits;
  }

  /** What a wallet is off after a correction: nothing, unless the script takes another write-off's slice for
      one of its own; then all of a credit, and of a debit all but the slices it books instead. */
  lemma {:induction false} AdjustGap(s: State, w: WalletId, amount: int, key: string, v: WalletId)
    requires Rebuildable(s) && Adjust(s, w, amount, key).Ok?
    ensures Gap(Adjust(s, w, amount, key).value, v)
         == if Foreign(s.txs, key) then (if v == w then amount else 0) - Collected(s, w, amount, key, v) else 0
  {
    hide Formed, Gap, Agree, RefsKnown, MultiLegs, Against, SlicesNamed, Rebuilt, MovesMoney, Accepts, Foreign, RowsOk,
      AbsorbedLegs, Own;
    var s', n := Adjust(s, w, amount, key).value, |s.txs|;
    if !Foreign(s.txs, key) {
      AdjustAgrees(s, w, amount, key);
      AgreeNoGap(s', v);
    } else {
      NamedExactly(s, key);
      var t := AdjustTables(s, w, amount, key);
      var e := Entry(n, Against(Own(s, w), amount, LedgerAdjustments));
      AgainstIsMoney(n, Own(s, w), amount, LedgerAdjustments);
      AgainstEffect(Own(s, w), amount, LedgerAdjustments);
      EntriesBelow(s);
      AgreeNoGap(s, v);
      AppendedGap(s, s', t, e, v);
      FormedTables(s');
      AdjustmentRebuilt(s', n);
      Unaffected(s, t, key);
      NamedOfRow(s.(txs := s.txs + [t]), s', t);
      LegsPositive(s', t);
      OwnId(s, w);
      WeightOfCollected(s, s', w, amount, key, t, v);
    }
  }

  lemma {:induction false} OwnId(s: State, w: WalletId)
    requires w < |s.wallets|
    ensures Own(s, w).id == w
  {
  }

  lemma {:induction false} WeightOfCollected(s: State, s': State, w: WalletId, amount: int, key: string, t: Tx,
      v: WalletId)
    requires w < |s.wallets| && s'.wallets == s.wallets && |s'.txs| > 0
    requires amount != 0 && t.from == (if amount < 0 then Some(w) else None)
    requires var legs, n := SlicesNamed(s, key), |s'.txs| - 1;
             && |legs| > 0 && (forall i :: 0 <= i < |legs| ==> legs[i].amount > 0)
             && Rebuilt(s', n)
                 == if t.from.None? || exists m :: m in legs && m.holder.currency != Own(s', w).currency then []
                                  else [Entry(n, MultiLegs([Movement(Own(s', w), Sum(legs, MovementAmount()))], legs))]
    ensures RebuiltWeight(s', |s'.txs| - 1, v) == Collected(s, w, amount, key, v)
  {
    hide MultiLegs, SlicesNamed, Rebuilt;
    var legs, n := SlicesNamed(s, key), |s'.txs| - 1;
    if Rebuilt(s', n) != [] {
      var e := Rebuilt(s', n)[0];
      CollectedWeight(n, Own(s', w), legs, v);
      SumSnoc([], e, OverLegs(BalanceIn(v)));
      assert [] + [e] == [e];
    }
  }

  lemma {:induction false} AdjustTables(s: State, w: WalletId, amount: int, key: string) returns (t: Tx)
    requires Rebuildable(s) && Adjust(s, w, amount, key).Ok?
    ensures t == Row(Adjustment, Completed, if amount < 0 then Some(w) else None,
                     if amount >= 0 then Some(w) else None, Abs(amount), Client(key))
    ensures w < |s.wallets| && amount != 0 && IsParent(s, t)
    ensures var s' := Adjust(s, w, amount, key).value;
            && s' == s.(txs := s.txs + [t],
                        journal := s.journal + [Entry(|s.txs|, Against(Own(s, w), amount, LedgerAdjustments))])
            && Formed(s')
  {
    hide Formed, Accepts, Against;
    t := Row(Adjustment, Completed, if amount < 0 then Some(w) else None,
             if amount >= 0 then Some(w) else None, Abs(amount), Client(key));
    StepGrows(s, OpAdjust(w, amount, key));
  }

  lemma {:induction false} AllOn(legs: seq<Movement>, w: WalletId)
    requires forall i :: 0 <= i < |legs| ==> legs[i].amount > 0 && legs[i].holder.id == w
    ensures Sum(legs, Moved(w)) == Sum(legs, MovementAmount())
  {
    SumSame(legs, legs, Moved(w), MovementAmount());
  }

  /** The slices found move some balance other than a plain correction of `w` would. */
  lemma {:induction false} CollectedElsewhere(legs: seq<Movement>, w: WalletId, amount: int) returns (v: WalletId)
    requires |legs| > 0 && (forall i :: 0 <= i < |legs| ==> legs[i].amount > 0) && amount != 0
    ensures (if v == w then amount else 0) != Sum(legs, Moved(v)) - if v == w then Sum(legs, MovementAmount()) else 0
  {
    if i :| 0 <= i < |legs| && legs[i].holder.id != w {
      v := legs[i].holder.id;
      SumPositiveAt(legs, Moved(v), i);
    } else {
      v := w;
      AllOn(legs, w);
    }
  }

  lemma {:induction false} SumPositiveAt(legs: seq<Movement>, f: Movement -> int, i: nat)
    requires i < |legs| && f(legs[i]) > 0 && forall k :: 0 <= k < |legs| ==> f(legs[k]) >= 0
    ensures Sum(legs, f) > 0
  {
    var n := |legs| - 1;
    SumNonNegative(legs[..n], f);
    if i < n {
      SumPositiveAt(legs[..n], f, i);
    }
  }

  /** A correction survives a backfill if and only if no slice already reads as one of its key's. */
  lemma {:induction false} AdjustRebuiltExactly(s: State, w: WalletId, amount: int, key: string)
    requires Rebuildable(s) && Adjust(s, w, amount, key).Ok?
    ensures (forall v :: Gap(Adjust(s, w, amount, key).value, v) == 0) <==> !Foreign(s.txs, key)
  {
    hide Formed, Gap, Agree, RefsKnown, Adjust, SlicesNamed, Foreign, Misfit, RowsOk;
    forall v ensures Gap(Adjust(s, w, amount, key).value, v)
         == if Foreign(s.txs, key) then (if v == w then amount else 0) - Collected(s, w, amount, key, v) else 0
    {
      AdjustGap(s, w, amount, key, v);
    }
    if Foreign(s.txs, key) {
      var t := AdjustTables(s, w, amount, key);
      if amount > 0 || Misfit(s, key, w) {
        assert Gap(Adjust(s, w, amount, key).value, w) == amount;
      } else {
        NamedExactly(s, key);
        FormedTables(s);
        NamedOfRow(s, s, t);
        LegsPositive(s, t);
        var v := CollectedElsewhere(SlicesNamed(s, key), w, amount);
        assert Gap(Adjust(s, w, amount, key).value, v) != 0;
      }
    }
  }

  // ---- Payout sweeps of a repository-backed wallet ----

  ghost predicate Traced(s: State) {
    Formed(s) && TxsBelow(s.journal, |s.txs|)
  }

  lemma {:induction false} SameGaps(s: State, s': State, n: nat, v: WalletId)
    requires n <= |s.txs| && n <= |s'.txs|
    requires forall id :: 0 <= id < n ==>
        Rebuilt(s', id) == Rebuilt(s, id) && MoneyEntries(s'.journal, id) == MoneyEntries(s.journal, id)
    ensures GapTotal(s', n, v) == GapTotal(s, n, v)
  {
    hide Rebuilt, MoneyEntries;
    if n > 0 {
      SameGaps(s, s', n - 1, v);
    }
  }

  /** One more row with one entry: the gap moves by what the entry says and the script does not. */
  lemma {:induction false} AppendedGap(s: State, s': State, row: Tx, e: Entry, v: WalletId)
    requires Traced(s) && IsParent(s, row) && s'.txs == s.txs + [row] && s'.wallets == s.wallets
    requires s'.journal == s.journal + [e] && e.tx == |s.txs| && MovesMoney(e)
    ensures TxsBelow(s'.journal, |s'.txs|)
    ensures Gap(s', v) == Gap(s, v) + EntryWeight(e, v) - RebuiltWeight(s', |s.txs|, v)
  {
    hide Formed, Rebuilt, MoneyEntries, MovesMoney, Grows, Gap, IsParent, RebuiltWeight;
    var n := |s.txs|;
    FormedTables(s);
    ParentGrows(s, s', row);
    forall id | 0 <= id < n
      ensures Rebuilt(s', id) == Rebuilt(s, id) && MoneyEntries(s'.journal, id) == MoneyEntries(s.journal, id)
    {
      UntouchedRebuilt(s, s', {}, id);
      MoneySnoc(s.journal, e, id);
      assert MoneyEntries(s.journal, id) + [] == MoneyEntries(s.journal, id);
    }
    SameGaps(s, s', n, v);
    GapIsTotal(s, v);
    GapIsTotal(s', v);
    RowWeightSnoc(s.journal, e, n, v);
    NothingPosted(s, n);
  }

  /** A settled mark is nothing to the script. */
  lemma {:induction false} MarkGap(s: State, p: TxId, v: WalletId)
    requires Traced(s) && p < |s.txs| && s.txs[p].kind == Purchase && s.txs[p].status == Completed
    ensures Traced(Mark(s, p)) && Gap(Mark(s, p), v) == Gap(s, v)
  {
    hide Formed, Rebuilt, MoneyEntries, Gap, SameLines;
    FormedTables(s);
    MarkGrows(s, p);
    var s' := Mark(s, p);
    assert Grows(s, s', {});
    forall id | 0 <= id < |s.txs| ensures Rebuilt(s', id) == Rebuilt(s, id) {
      UntouchedRebuilt(s, s', {}, id);
    }
    SameGaps(s, s', |s.txs|, v);
    GapIsTotal(s, v);
    GapIsTotal(s', v);
  }

  /** A payer whose own balance lives on a repository. */
  predicate PaysLinked(s: State, payer: Payer, r: WalletId) {
    && PayerOk(s, payer) && s.wallets[payer.wallet].repository == Some(r)
  }

  lemma {:induction false} PayerLink(s: State, payer: Payer, r: WalletId)
    requires Formed(s) && PaysLinked(s, payer, r)
    ensures r < |s.wallets| && r != payer.wallet && Own(s, r).currency == Own(s, payer.wallet).currency
    ensures LedgerHolder(s, payer.wallet) == Ok(Own(s, r))
  {
    hide Formed;
    FormedTables(s);
    LinkFacts(s.wallets, payer.wallet);
    assert LinkOk(s.wallets, payer.wallet);
  }

  /** What the script makes of a payout's net row: out of the repository, then mirrored on the wallet. */
  lemma {:induction false} NetRebuilt(s: State, n: TxId, w: WalletId, r: WalletId, net: int, v: WalletId)
    requires n < |s.txs| && w < |s.wallets| && r < |s.wallets| && r != w && net > 0
    requires s.wallets[w].repository == Some(r) && LedgerHolder(s, w) == Ok(Own(s, r))
    requires var t := s.txs[n]; t.kind == Withdraw && t.from == Some(w) && t.amount == net && !IsChildLeg(t.key)
    ensures RebuiltWeight(s, n, v) == -(if v == r then net else 0) - if v == w then net else 0
  {
    hide Accepts, Against, IsChildLeg;
    var cash := CashAccount(s.txs[n].cleared);
    var out, mirror := Entry(n, Against(Own(s, r), -net, cash)),
        Entry(n, Against(Own(s, w), -net, RepositoryAllocations));
    AgainstEffect(Own(s, r), -net, cash);
    AgainstEffect(Own(s, w), -net, RepositoryAllocations);
    AcceptsExactly(out.legs);
    AcceptsExactly(mirror.legs);
    assert Handle(s, n) == [out, mirror];
    SumPair(out, mirror, OverLegs(BalanceIn(v)));
  }

  lemma {:induction false} PayNetGap(s: State, payer: Payer, net: int, key: Key, purchase: Option<TxId>, r: WalletId,
      v: WalletId)
    requires Traced(s) && PaysLinked(s, payer, r) && !IsChildKey(key) && PayNet(s, payer, net, key, purchase).Ok?
    ensures var s' := PayNet(s, payer, net, key, purchase).value;
            && TxsBelow(s'.journal, |s'.txs|) && Gap(s', v) == Gap(s, v) + (if v == r then net else 0)
            && TotalPaid(s', payer.wallet) == TotalPaid(s, payer.wallet) + net
  {
    hide Formed, Gap, Accepts, Against, MovesMoney, RebuiltWeight, IsChildLeg, Own, LedgerHolder, FindKey;
    var w, n := payer.wallet, |s.txs|;
    var cleared := payer.rail.None? || n !in payer.failed;
    var row := Row(Withdraw, Completed, Some(w), None, net, key).(related := purchase, cleared := cleared);
    var s' := PayNet(s, payer, net, key, purchase).value;
    var e := Entry(n, Against(Own(s, w), -net, CashAccount(cleared)));
    PayerLink(s, payer, r);
    AgainstIsMoney(n, Own(s, w), -net, CashAccount(cleared));
    AppendedGap(s, s', row, e, v);
    AgainstEffect(Own(s, w), -net, CashAccount(cleared));
    HolderIs(s, w);
    SameHolders(s, s', w);
    SameHolders(s, s', r);
    NotAChildKey(key);
    NetRebuilt(s', n, w, r, net, v);
    SumSnoc(s.txs, row, PaidBy(w));
  }

  lemma {:induction false} HolderIs(s: State, w: WalletId)
    requires w < |s.wallets|
    ensures Own(s, w).id == w
  {
  }

  lemma {:induction false} SameHolders(s: State, s': State, w: WalletId)
    requires w < |s.wallets| && s'.wallets == s.wallets
    ensures Own(s', w) == Own(s, w) && LedgerHolder(s', w) == LedgerHolder(s, w)
  {
  }

  lemma {:induction false} NotAChildKey(key: Key)
    requires !IsChildKey(key)
    ensures !IsChildLeg(key)
  {
  }

  lemma {:induction false} WalletToWalletEffect(a: Holder, b: Holder, amount: int)
    requires amount > 0 && a.currency == b.currency
    ensures Acceptable(WalletToWallet(a, b, amount))
    ensures forall w ::
        Sum(WalletToWallet(a, b, amount), BalanceIn(w)) == (if w == b.id then amount else 0) - if w == a.id then amount
            else 0
  {
    var legs := WalletToWallet(a, b, amount);
    forall f: Leg -> int ensures Sum(legs, f) == f(legs[0]) + f(legs[1]) {
      SumPair(legs[0], legs[1], f);
    }
  }

  /** What the script makes of a payout's fee row: from the repository, then mirrored on the wallet. */
  lemma {:induction false} FeeRebuilt(s: State, n: TxId, w: WalletId, r: WalletId, target: WalletId, fee: int,
      v: WalletId)
    requires n < |s.txs| && w < |s.wallets| && r < |s.wallets| && target < |s.wallets| && r != w && fee > 0
    requires s.wallets[w].repository == Some(r) && LedgerHolder(s, w) == Ok(Own(s, r))
    requires Own(s, target).currency == Own(s, r).currency
    requires var t := s.txs[n];
             t.kind == Transfer && t.from == Some(w) && t.to == Some(target) && t.amount == fee && !IsChildLeg(t.key)
    ensures RebuiltWeight(s, n, v)
         == (if v == target then fee else 0) - (if v == r then fee else 0) - if v == w then fee else 0
  {
    hide Accepts, Against, WalletToWallet, IsChildLeg;
    var moved := Entry(n, WalletToWallet(Own(s, r), Own(s, target), fee));
    var mirror := Entry(n, Against(Own(s, w), -fee, RepositoryAllocations));
    WalletToWalletEffect(Own(s, r), Own(s, target), fee);
    AgainstEffect(Own(s, w), -fee, RepositoryAllocations);
    AcceptsExactly(moved.legs);
    AcceptsExactly(mirror.legs);
    assert Handle(s, n) == [moved, mirror];
    SumPair(moved, mirror, OverLegs(BalanceIn(v)));
  }

  lemma {:induction false} OneCurrency(a: Holder, b: Holder, amount: int)
    requires amount > 0 && Accepts(WalletToWallet(a, b, amount))
    ensures a.currency == b.currency
  {
    var legs := WalletToWallet(a, b, amount);
    SumPair(legs[0], legs[1], SignedIn(legs[0].currency));
  }

  lemma {:induction false} FeePosted(s: State, payer: Payer, fee: int, key: Key, purchase: Option<TxId>)
    requires PayerOk(s, payer) && payer.feeRepository.Some? && fee > 0 && PayOutFee(s, payer, fee, key, purchase).Ok?
    ensures var w, target := payer.wallet, payer.feeRepository.value;
            var row := Row(Transfer, Completed, Some(w), Some(target), fee, PayoutFee(key)).(related := purchase);
            && PayOutFee(s, payer, fee, key, purchase).value
               == s.(txs := s.txs + [row],
                     journal := s.journal + [Entry(|s.txs|, WalletToWallet(Own(s, w), Own(s, target), fee))])
            && IsParent(s, row) && Own(s, w).currency == Own(s, target).currency
  {
    hide Accepts, WalletToWallet, Own;
    OneCurrency(Own(s, payer.wallet), Own(s, payer.feeRepository.value), fee);
  }

  lemma {:induction false} PayFeeGap(s: State, payer: Payer, fee: int, key: Key, purchase: Option<TxId>, r: WalletId,
      v: WalletId)
    requires Traced(s) && PaysLinked(s, payer, r) && payer.feeRepository.Some? && fee > 0
    requires PayOutFee(s, payer, fee, key, purchase).Ok?
    ensures var s' := PayOutFee(s, payer, fee, key, purchase).value;
            && TxsBelow(s'.journal, |s'.txs|) && Gap(s', v) == Gap(s, v) + (if v == r then fee else 0)
            && TotalPaid(s', payer.wallet) == TotalPaid(s, payer.wallet) + fee
  {
    hide Formed, Gap, PayOutFee, WalletToWallet, MovesMoney, RebuiltWeight, IsChildLeg, IsParent, Own, LedgerHolder,
      FindKey;
    var w, target, n := payer.wallet, payer.feeRepository.value, |s.txs|;
    var s' := PayOutFee(s, payer, fee, key, purchase).value;
    FeePosted(s, payer, fee, key, purchase);
    PayerLink(s, payer, r);
    WalletsAreMoney(n, Own(s, w), Own(s, target), fee);
    AppendedGap(s, s', s'.txs[n], Entry(n, WalletToWallet(Own(s, w), Own(s, target), fee)), v);
    WalletToWalletEffect(Own(s, w), Own(s, target), fee);
    HolderIs(s, w);
    HolderIs(s, target);
    SameHolders(s, s', w);
    SameHolders(s, s', r);
    SameHolders(s, s', target);
    NotAChildKey(PayoutFee(key));
    FeeRebuilt(s', n, w, r, target, fee, v);
    SumSnoc(s.txs, s'.txs[n], PaidBy(w));
  }

  /** From `s` to `s'` the script falls behind on the repository by what was paid out, and on nobody else. */
  ghost predicate Drifts(s: State, s': State, w: WalletId, r: WalletId, v: WalletId) {
    Traced(s') && Gap(s', v) == Gap(s, v) + if v == r then TotalPaid(s', w) - TotalPaid(s, w) else 0
  }

  /** A payout of a repository-backed wallet: the script takes it out of the repository as well. */
  lemma {:induction false} PayOutGap(s: State, payer: Payer, amount: int, key: Key, purchase: Option<TxId>,
      r: WalletId, v: WalletId)
    requires Traced(s) && PaysLinked(s, payer, r) && !IsChildKey(key) && PayOut(s, payer, amount, key, purchase).Ok?
    ensures Drifts(s, PayOut(s, payer, amount, key, purchase).value, payer.wallet, r, v)
  {
    hide Formed, Gap, PayOutFee, PayNet, TotalPaid;
    PayOutGrows(s, payer, amount, key, purchase);
    var fee := FeeOfPayout(payer, amount);
    var s1 := if fee > 0 then PayOutFee(s, payer, fee, key, purchase).value else s;
    if fee > 0 {
      FeeGrows(s, payer, fee, key, purchase);
      PayFeeGap(s, payer, fee, key, purchase, r, v);
    }
    if amount > fee {
      PayNetGap(s1, payer, amount - fee, key, purchase, r, v);
    }
  }

  lemma {:induction false} PaySlicesGap(s: State, payer: Payer, p: TxId, slices: seq<int>, r: WalletId, v: WalletId)
    requires Traced(s) && PaysLinked(s, payer, r) && PaySlices(s, payer, p, slices).Ok?
    ensures Drifts(s, PaySlices(s, payer, p, slices).value, payer.wallet, r, v)
  {
    hide Formed, Gap, PayOut, TotalPaid;
    if |slices| > 0 {
      var n := |slices| - 1;
      PaySlicesGap(s, payer, p, slices[..n], r, v);
      PayOutGap(PaySlices(s, payer, p, slices[..n]).value, payer, slices[n],
          SweepSlice(payer.wallet, p, n, payer.minute),
                Some(p), r, v);
    }
  }

  lemma {:induction false} SweepPurchasesGap(s: State, payer: Payer, n: nat, balance: int, r: WalletId, v: WalletId)
    requires Traced(s) && PaysLinked(s, payer, r) && n <= |s.txs| && SweepPurchases(s, payer, n, balance).Ok?
    ensures Drifts(s, SweepPurchases(s, payer, n, balance).value.state, payer.wallet, r, v)
  {
    hide Formed, Gap, PaySlices, SlicesOf, TotalPaid;
    if n > 0 {
      var p := n - 1;
      SweepPurchasesGap(s, payer, p, balance, r, v);
      SweepingGrows(s, payer, p, balance);
      var done := SweepPurchases(s, payer, p, balance).value;
      var slices := SlicesOf(s, p, payer.wallet);
      if Unsettled(s.txs[p], payer.wallet) && Sum(slices, Identity()) <= done.remaining {
        PaySlicesGap(done.state, payer, p, slices, r, v);
        var s1 := PaySlices(done.state, payer, p, slices).value;
        MarkGap(s1, p, v);
        MarkPaysNothing(s1, p, payer.wallet);
      }
    }
  }

  lemma {:induction false} MarkPaysNothing(s: State, p: TxId, w: WalletId)
    requires p < |s.txs|
    ensures TotalPaid(Mark(s, p), w) == TotalPaid(s, w)
  {
    SumUpdate(s.txs, p, s.txs[p].(settled := true), PaidBy(w));
  }

  /** After a sweep of a repository-backed wallet the script also takes what was paid out of the repository. */
  lemma {:induction false} LinkedSweepGap(s: State, w: WalletId, minute: nat, failed: set<TxId>, v: WalletId)
    requires Rebuildable(s) && w < |s.wallets| && s.wallets[w].repository.Some? && SweepWallet(s, w, minute, failed).Ok?
    ensures var s' := SweepWallet(s, w, minute, failed).value;
            Gap(s', v) == if v == s.wallets[w].repository.value then TotalPaid(s', w) - TotalPaid(s, w) else 0
  {
    hide Formed, Gap, AgreesAt, RefsKnown, SweepPurchases, PayOut, SplitMode, TotalPaid;
    AgreeNoGap(s, v);
    EntriesBelow(s);
    var r, balance := s.wallets[w].repository.value, Balance(s.journal, w);
    if balance > 0 {
      var payer := PayerFor(s, w, minute, failed).value;
      if !SplitMode(s, w) {
        PayOutGap(s, payer, balance, Sweep(w, minute), None, r, v);
      } else {
        SweepPurchasesGap(s, payer, |s.txs|, balance, r, v);
      }
    }
  }

  /** A payout sweep survives a backfill if and only if the wallet has no repository behind it, or
      nothing was paid out. */
  lemma {:induction false} SweepRebuiltExactly(s: State, w: WalletId, minute: nat, failed: set<TxId>)
    requires Rebuildable(s) && SweepWallet(s, w, minute, failed).Ok?
    ensures w < |s.wallets|
    ensures var s' := SweepWallet(s, w, minute, failed).value;
            (forall v :: Gap(s', v) == 0) <==> s.wallets[w].repository.None? || TotalPaid(s', w) == TotalPaid(s, w)
  {
    hide Formed, Gap, Agree, RefsKnown, SweepPurchases, PayOut, SplitMode, TotalPaid;
    var s' := SweepWallet(s, w, minute, failed).value;
    if s.wallets[w].repository.None? {
      SweepAgrees(s, w, minute, failed);
      forall v ensures Gap(s', v) == 0 {
        AgreeNoGap(s', v);
      }
    } else {
      var r := s.wallets[w].repository.value;
      forall v ensures Gap(s', v) == if v == r then TotalPaid(s', w) - TotalPaid(s, w) else 0 {
        LinkedSweepGap(s, w, minute, failed, v);
      }
      assert Gap(s', r) == TotalPaid(s', w) - TotalPaid(s, w);
    }
  }

  // ---- Which keys make it go wrong ----

  /** No adjustment has this key but for the ending `-unblock`, on either side. */
  predicate KeysApart(txs: seq<Tx>, key: string) {
    forall i :: 0 <= i < |txs| && IsAdjustment(txs[i]) ==>
        txs[i].key.key != key + UNBLOCK && key != txs[i].key.key + UNBLOCK
  }

  lemma {:induction false} ReadsAsBoth(text: string, a: string, b: string)
    requires ReadsAsSlice(text, a) && ReadsAsSlice(text, b)
    ensures a == b || b == a + UNBLOCK || a == b + UNBLOCK
  {
    var x :| text == a + Suffix(x);
    var y :| text == b + Suffix(y);
    SlicesReadAlikeExactly(a, x, b, y);
  }

  lemma {:induction false} OwnsNone(txs: seq<Tx>, key: string, id: TxId, k: Key)
    requires KeysApart(txs, key) && FindKey(txs, Client(key)).None? && id < |txs| && Absorbs(k, key)
    ensures !OwnsSlice(txs[id], k)
  {
    hide ReadsAsSlice, FindKey;
    if IsAdjustment(txs[id]) && ReadsAsSlice(k.text, txs[id].key.key) {
      ReadsAsBoth(k.text, key, txs[id].key.key);
    }
  }

  /** With keys that are apart a write-off or a correction never meets another one's slices. */
  lemma {:induction false} ApartIsSafe(s: State, w: WalletId, quit: bool, key: string)
    requires RefsKnown(s.txs) && KeysApart(s.txs, key) && FindKey(s.txs, Client(key)).None?
    ensures !Foreign(s.txs, key) && !TakesOver(s, w, quit, key)
  {
    hide OwnsSlice, LegFor, OwedParts, Rebuilt, FindKey, SliceKey, KeysApart, ReadsAsSlice;
    forall i | 0 <= i < |s.txs| ensures !Absorbs(s.txs[i].key, key) {
      assert KeyKnown(s.txs, i);
      if Absorbs(s.txs[i].key, key) {
        forall id | 0 <= id < |s.txs| ensures !OwnsSlice(s.txs[id], s.txs[i].key) {
          OwnsNone(s.txs, key, id, s.txs[i].key);
        }
      }
    }
    forall id, slice: Slice | 0 <= id < |s.txs|
      ensures !OwnsSlice(s.txs[id], SliceKey(AbsorbPrefix(quit, key), slice))
    {
      SliceIsChild(quit, key, slice);
      OwnsNone(s.txs, key, id, SliceKey(AbsorbPrefix(quit, key), slice));
    }
  }

  /** After an overdue write-off whose key ends in `-unblock` and which routed its fee, a credit under the key
      without that ending is lost: the script takes the fee slice for the correction's unblock fee. */
  lemma {:induction false} UnblockKeyGap(s: State, w: WalletId, key: string, a: WalletId, amount: int, v: WalletId)
    requires Rebuildable(s) && WriteOff(s, w, false, key + UNBLOCK).Ok? && WriteOffSurvives(s, w, false, key + UNBLOCK)
    requires w < |s.wallets| && LegFor(s, OwedParts(s, w, false), FeeSlice) != []
    requires Adjust(WriteOff(s, w, false, key + UNBLOCK).value, a, amount, key).Ok? && amount > 0
    ensures Gap(Adjust(WriteOff(s, w, false, key + UNBLOCK).value, a, amount, key).value, v)
        == if v == a then amount else 0
  {
    hide Formed, Agree, RefsKnown, WriteOff, MarkAllPaid, Adjust, Gap, TakesOver, Foreign, Absorbed, Misfit, LegFor,
      OwedParts, SameLines;
    var s1 := WriteOff(s, w, false, key + UNBLOCK).value;
    StepGrows(s, OpWriteOff(w, false, key + UNBLOCK));
    var s2 := WriteOffTables(s, w, false, key + UNBLOCK);
    RoutesSlice(s, w, false, FeeSlice);
    WriteOffAgrees(s, w, false, key + UNBLOCK);
    AbsorbedFormed(s, s2, w, false, key + UNBLOCK);
    AgreedByThen(s, s2, w, false, key + UNBLOCK);
    FeeSliceStays(s, s2, s1, w, key);
    AdjustGap(s1, a, amount, key, v);
  }

  lemma {:induction false} RoutesSlice(s: State, w: WalletId, quit: bool, slice: Slice)
    requires w < |s.wallets| && LegFor(s, OwedParts(s, w, quit), slice) != []
    ensures RoutesASlice(s, w, quit)
  {
    hide LegFor, OwedParts, RoutedBy, RoutesASlice;
    RoutedExactly(s, w, quit);
    RoutedCount(s, w, quit);
    match slice
    case FeeSlice =>
    case PenaltySlice =>
    case UnblockSlice =>
  }

  lemma {:induction false} FeeSliceStays(s: State, s2: State, s1: State, w: WalletId, key: string)
    requires w < |s.wallets| && s.wallets[w].repository.Some? && s.wallets[w].repository.value < |s.wallets|
    requires Absorbed(s, s2, w, false, key + UNBLOCK) && LegFor(s, OwedParts(s, w, false), FeeSlice) != []
    requires s2.txs <= s1.txs
    ensures Foreign(s1.txs, key)
  {
    hide Formed, RoutedBy, MultiLegs, WrittenOff, LegFor, OwedParts, NoSliceYet;
    SlicesReadAlikeExactly(key, UnblockSlice, key + UNBLOCK, FeeSlice);
    var k := SliceKey(AbsorbPrefix(false, key + UNBLOCK), FeeSlice);
    assert SiblingTo(s2, k) != [];
    var f := FindKey(s2.txs, k).value;
    assert s1.txs[f].key == k && Absorbs(k, key);
  }

  // ---- Top-ups that revive a refunded purchase ----

  /** The funding rows a settlement writes have keys of their own: none of them was there before. */
  lemma {:induction false} FundingKeysAreNew(s: State, p: TxId, support: Funding, today: Date)
    requires Formed(s) && Ready(s, p, Some(support)) && OnCalendar(today) && Settle(s, p, Some(support), today).Ok?
    ensures FindKey(s.txs, SupportFund(p)).None?
    ensures DrawsOnLine(s, s.txs[p].from.value, Remainder(s, p, Some(support))) ==> FindKey(s.txs, CreditFund(p)).None?
  {
    hide FindKey, Settle, Draw;
    var from := s.txs[p].from.value;
    assert FundFromSupport(s, p, from, support).Ok? by {
      var s2 := SettleUnfolds(s, p, Some(support), today);
    }
    if DrawsOnLine(s, from, Remainder(s, p, Some(support))) {
      var s2 := SettleUnfolds(s, p, Some(support), today);
      FundingTables(s, s2, p, Some(support), today);
      FindKeySnoc(s.txs, SupportRow(p, from, support), CreditFund(p));
    }
  }

  /** A purchase with an old draw that a top-up pays for once more, in full: the script finds both fundings
      and an entry that does not balance. */
  lemma {:induction false} RevivedDrawUnbalanced(s: State, s': State, p: TxId, support: Funding)
    requires Rebuildable(s) && Ready(s, p, Some(support)) && FindKey(s.txs, CreditFund(p)).Some?
    requires FindKey(s.txs, SupportFund(p)).None?
    requires !DrawsOnLine(s, s.txs[p].from.value, Remainder(s, p, Some(support)))
    requires BackingExists(s, s.txs[p].from.value) && Accepts(PurchaseLegs(s, p, Some(support)))
    requires s'.txs == s.txs[p := s.txs[p].(status := Completed)] + FundingRows(s, p, Some(support))
    requires SameWallets(s.wallets, s'.wallets)
    ensures Rebuilt(s', p) == []
  {
    hide Formed, RefsKnown, Accepts, FundingRows, MultiLegs, LedgerHolder, FindKey, SameWallets, IsChildLeg;
    var from := s.txs[p].from.value;
    var f := FindKey(s.txs, CreditFund(p)).value;
    FormedTables(s);
    FormedRow(s, f);
    NotAChild(s, p);
    var drawn, paid := Movement(Own(s, s.txs[f].from.value), s.txs[f].amount),
        Movement(Own(s, support.wallet), support.amount);
    var own := Movement(Own(s, s.txs[p].to.value), s.txs[p].amount);
    SiblingsOfRevived(s, s', p, support, f);
    HoldersAlike(s, s', s.txs[p].to.value);
    HoldersAlike(s, s', from);
    LedgerHolderFoundHere(s, s', from);
    assert FundingLegs(s, from, s.txs[p].amount, Some(support)) == [paid] by {
      assert [paid] + [] == [paid];
    }
    assert PurchaseDebits(s', p) == [paid, drawn];
    assert Handle(s', p) == [Entry(p, MultiLegs([paid, drawn], [own]))];
    TwiceFunded(paid, drawn, own);
    assert !Accepts(Handle(s', p)[0].legs);
  }

  lemma {:induction false} LedgerHolderFoundHere(s: State, s': State, w: WalletId)
    requires BackedOk(s.wallets) && w < |s.wallets| && w < |s'.wallets| && LedgerHolder(s', w) == LedgerHolder(s, w)
    ensures LedgerHolder(s', w).Ok?
  {
    LinkFacts(s.wallets, w);
    BackedAreLinked(s.wallets);
    LedgerHolderFound(s, w);
  }

  lemma {:induction false} SiblingsOfRevived(s: State, s': State, p: TxId, support: Funding, f: TxId)
    requires BackedOk(s.wallets) && Ready(s, p, Some(support)) && FindKey(s.txs, CreditFund(p)) == Some(f)
    requires f < |s.txs| && s.txs[f].key == CreditFund(p) && s.txs[f].from.Some? && s.txs[f].from.value < |s.wallets|
    requires FindKey(s.txs, SupportFund(p)).None? && !IsChildKey(s.txs[p].key)
    requires !DrawsOnLine(s, s.txs[p].from.value, Remainder(s, p, Some(support)))
    requires s'.txs == s.txs[p := s.txs[p].(status := Completed)] + FundingRows(s, p, Some(support))
    requires SameWallets(s.wallets, s'.wallets)
    ensures SiblingFrom(s', SupportFund(p)) == [Movement(Own(s, support.wallet), support.amount)]
    ensures SiblingFrom(s', CreditFund(p)) == [Movement(Own(s, s.txs[f].from.value), s.txs[f].amount)]
  {
    hide BackedOk, FindKey, SameWallets;
    var row := SupportRow(p, s.txs[p].from.value, support);
    var done := s.txs[p := s.txs[p].(status := Completed)];
    assert s'.txs == done + [row];
    forall key: Key ensures FindKey(s'.txs, key) == if FindKey(s.txs, key).Some? then FindKey(s.txs, key)
                                                  else if row.key == key then Some(|s.txs|) else None
    {
      FindKeyUpdate(s.txs, p, done[p], key);
      FindKeySnoc(done, row, key);
    }
    HoldersAlike(s, s', support.wallet);
    HoldersAlike(s, s', s.txs[f].from.value);
  }

  lemma {:induction false} TwiceFunded(paid: Movement, drawn: Movement, own: Movement)
    requires Accepts(MultiLegs([paid], [own])) && drawn.amount > 0
    ensures !Accepts(MultiLegs([paid, drawn], [own]))
  {
    hide MultiLegs, Accepts;
    var c := drawn.holder.currency;
    AcceptsExactly(MultiLegs([paid], [own]));
    MultiEffect([paid], [own]);
    SumSnoc([paid], drawn, MovedIn(c));
    assert [paid] + [drawn] == [paid, drawn];
    AcceptsExactly(MultiLegs([paid, drawn], [own]));
    MultiEffect([paid, drawn], [own]);
  }

  /** A settled purchase that was refunded before: its earlier entries are still there, under the new one. */
  lemma {:induction false} RevivedRows(s: State, p: TxId, support: Funding, today: Date)
    requires Rebuildable(s) && Ready(s, p, Some(support)) && OnCalendar(today) && Settle(s, p, Some(support), today).Ok?
    ensures BackingExists(s, s.txs[p].from.value)
    ensures var s' := Settle(s, p, Some(support), today).value;
            && TxsBelow(s'.journal, |s'.txs|) && p < |s'.txs|
            && (forall id :: 0 <= id < |s'.txs| && id != p ==> AgreesAt(s', id))
            && MoneyEntries(s'.journal, p) == MoneyEntries(s.journal, p) + [Entry(p, PurchaseLegs(s, p, Some(support)))]
            && Rebuilt(s', p)
                == if FindKey(s.txs, CreditFund(p)).None? then [Entry(p, PurchaseLegs(s, p, Some(support)))] else []
  {
    hide Formed, Settle, FundingRows, PurchaseLegs, Accepts, MovesMoney, Grows, MoneyEntries, RefsKnown, ReceivableLegs,
      Rebuilt, Skipped, KeyKnown, MarkerKnown, FindKey, BackedOk, RowsOk;
    var s' := Settle(s, p, Some(support), today).value;
    SettleAppends(s, p, Some(support), today);
    FundingKeysAreNew(s, p, support, today);
    var tracked, posted := TrackedDraw(s, p, Some(support)), Entry(p, PurchaseLegs(s, p, Some(support)));
    FormedTables(s);
    NotAChild(s, p);
    FundingRowsGrow(s, s', p, Some(support));
    PurchaseIsMoney(s, p, Some(support));
    TrackingIsNoMoney(p, Own(s, s.txs[p].from.value), Remainder(s, p, Some(support)));
    forall id: TxId ensures MoneyEntries(s'.journal, id) == MoneyEntries(s.journal, id)
        + if id == p then [posted] else [] {
      TouchedEntries(s.journal, tracked, posted, p, id);
    }
    if FindKey(s.txs, CreditFund(p)).None? {
      PurchaseRebuilt(s, s', p, Some(support));
    } else {
      RevivedDrawUnbalanced(s, s', p, support);
    }
    forall id | 0 <= id < |s'.txs| && id != p ensures AgreesAt(s', id) {
      if id < |s.txs| {
        assert MoneyEntries(s.journal, id) + [] == MoneyEntries(s.journal, id);
        UntouchedAgrees(s, s', {p}, id);
      } else {
        NothingPosted(s, id);
        ChildIsSkipped(s', id);
      }
    }
  }

  /** Landing the top-up does nothing to the purchase it was asked for. */
  lemma {:induction false} LandedApart(s: State, t: TxId, user: nat, currency: CurrencyId, p: TxId)
    requires t < |s.txs| && p < |s.txs| && p != t && LandTopUp(s, t, user, currency).Ok?
    ensures var s1 := LandTopUp(s, t, user, currency).value.0;
            && MoneyEntries(s1.journal, p) == MoneyEntries(s.journal, p)
            && p < |s1.txs| && s1.txs[p] == s.txs[p] && FindKey(s1.txs, CreditFund(p)) == FindKey(s.txs, CreditFund(p))
  {
    hide Accepts, Against, MovesMoney, SupportWalletFor, FindKey;
    var (s0, support) := SupportWalletFor(s, user, currency).value;
    assert s0.txs == s.txs && s0.journal == s.journal by {
      SupportLeaves(s, user, currency);
    }
    if s.txs[t].status != Completed {
      MoneySnoc(s.journal, Entry(t, Against(Own(s0, support), s.txs[t].amount, BankCash)), p);
      assert MoneyEntries(s.journal, p) + [] == MoneyEntries(s.journal, p);
      FindKeyUpdate(s.txs, t, s.txs[t].(to := Some(support), status := Completed), CreditFund(p));
    }
  }

  lemma {:induction false} SupportLeaves(s: State, user: nat, currency: CurrencyId)
    requires SupportWalletFor(s, user, currency).Ok?
    ensures var (s0, support) := SupportWalletFor(s, user, currency).value;
            s0.txs == s.txs && s0.journal == s.journal
  {
  }

  /** A top-up that completes its purchase, seen from the backfill: only the purchase can be off. */
  lemma {:induction false} RevivedPurchase(s: State, t: TxId, today: Date)
    requires Rebuildable(s) && t < |s.txs| && s.txs[t].completes.Some? && OnCalendar(today)
        && CompleteTopUp(s, t, today).Ok?
    requires s.txs[t].status != Reversed && TopUpSettles(s, t)
    ensures var p, s' := s.txs[t].completes.value, CompleteTopUp(s, t, today).value;
            && TxsBelow(s'.journal, |s'.txs|) && p < |s'.txs|
            && (forall id :: 0 <= id < |s'.txs| && id != p ==> AgreesAt(s', id))
            && exists posted: Entry ::
                 && MoneyEntries(s'.journal, p) == MoneyEntries(s.journal, p) + [posted]
                 && Rebuilt(s', p) == if FindKey(s.txs, CreditFund(p)).None? then [posted] else []
  {
    hide Formed, RefsKnown, Agree, Settle, LandTopUp, SameLines, PurchaseLegs, AgreesAt, MoneyEntries, Rebuilt, FindKey;
    var p := s.txs[t].completes.value;
    FormedRow(s, t);
    FormedRow(s, p);
    var user, currency := s.wallets[s.txs[p].from.value].user, s.wallets[s.txs[p].from.value].typ.currency;
    LandTopUpGrows(s, t, user, currency);
    LandTopUpAgrees(s, t, user, currency);
    FormedTables(s);
    TopUpReady(s, t, today);
    LandedApart(s, t, user, currency, p);
    var (s1, support) := LandTopUp(s, t, user, currency).value;
    RevivedRows(s1, p, Funding(support, s.txs[t].amount), today);
  }

  /** A completed purchase was posted once; one that comes back from a refund twice, and rebuilt at most once. */
  lemma {:induction false} PostedBefore(s: State, p: TxId)
    requires Rebuildable(s) && p < |s.txs| && IsPurchase(s.txs[p]) && s.txs[p].status == Reversed && HasMarker(s.txs, p)
    ensures |MoneyEntries(s.journal, p)| > 0
  {
    hide Formed, MoneyEntries, Rebuilt, RefsKnown, IsChildLeg;
    NotAChild(s, p);
    assert AgreesAt(s, p);
  }

  lemma {:induction false} SettledByTopUp(s: State, t: TxId, today: Date)
    requires Rebuildable(s) && t < |s.txs| && s.txs[t].completes.Some? && OnCalendar(today)
        && CompleteTopUp(s, t, today).Ok?
    requires TopUpSettles(s, t)
    ensures var p := s.txs[t].completes.value;
            IsPurchase(s.txs[p]) && (HasMarker(s.txs, p) ==> s.txs[p].status == Reversed)
  {
    hide Formed, Agree, Settle, LandTopUp;
    FormedRow(s, t);
    var p := s.txs[t].completes.value;
    FormedTables(s);
    TopUpReady(s, t, today);
    if HasMarker(s.txs, p) {
      var m :| 0 <= m < |s.txs| && s.txs[m].kind == Purchase && s.txs[m].status == Reversed
          && s.txs[m].related == Some(p);
      assert MarkerKnown(s.txs, m);
    }
  }

  /** A top-up survives a backfill if and only if it does not complete a purchase that was refunded. */
  lemma {:induction false} TopUpRebuiltExactly(s: State, t: TxId, today: Date)
    requires Rebuildable(s) && t < |s.txs| && s.txs[t].completes.Some? && OnCalendar(today)
        && CompleteTopUp(s, t, today).Ok?
    requires s.txs[t].status != Reversed
    ensures Agree(CompleteTopUp(s, t, today).value)
        <==> !(TopUpSettles(s, t) && HasMarker(s.txs, s.txs[t].completes.value))
  {
    hide Formed, RefsKnown, CompleteTopUp, HasMarker, MoneyEntries, Rebuilt, FindKey;
    if !TopUpSettles(s, t) || !HasMarker(s.txs, s.txs[t].completes.value) {
      TopUpAgrees(s, t, today);
    } else {
      var p := s.txs[t].completes.value;
      SettledByTopUp(s, t, today);
      RevivedPurchase(s, t, today);
      PostedBefore(s, p);
      assert !AgreesAt(CompleteTopUp(s, t, today).value, p);
    }
  }

  /** What goes missing then: the entries from before the refund, and with an old draw those of the new
      completion as well. */
  lemma {:induction false} RevivedGap(s: State, t: TxId, today: Date, v: WalletId)
    requires Rebuildable(s) && t < |s.txs| && s.txs[t].completes.Some? && OnCalendar(today)
        && CompleteTopUp(s, t, today).Ok?
    requires s.txs[t].status != Reversed && TopUpSettles(s, t)
    ensures var p, s' := s.txs[t].completes.value, CompleteTopUp(s, t, today).value;
            Gap(s', v) == RowWeight(if FindKey(s.txs, CreditFund(p)).None? then s.journal else s'.journal, p, v)
  {
    hide Formed, RefsKnown, Agree, CompleteTopUp, MoneyEntries, Rebuilt, FindKey, Gap;
    var p, s' := s.txs[t].completes.value, CompleteTopUp(s, t, today).value;
    SettledByTopUp(s, t, today);
    RevivedPurchase(s, t, today);
    var posted :| MoneyEntries(s'.journal, p) == MoneyEntries(s.journal, p) + [posted]
                  && Rebuilt(s', p) == if FindKey(s.txs, CreditFund(p)).None? then [posted] else [];
    OnlyGap(s', p, v);
    SumConcat(MoneyEntries(s.journal, p), [posted], OverLegs(BalanceIn(v)));
  }
}
