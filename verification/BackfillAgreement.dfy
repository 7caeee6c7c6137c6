/** The backfilled ledger against the live one, row by row: over the histories the script can rebuild,
    every row's rebuilt entries are the very entries that were posted for it. */
module BackfillAgreement {
  import opened Common
  import opened Sums
  import opened Ledger
  import opened Installments
  import opened Bank
  import opened BankInvariant
  import opened Backfill

  // ---- Entries row by row ----

  /** The entries of one row that touch balances, in order. */
  function MoneyEntries(j: Journal, id: TxId): seq<Entry> {
    if |j| == 0 then []
    else
      var init, e := MoneyEntries(j[..|j| - 1], id), j[|j| - 1];
      if e.tx == id && MovesMoney(e) then init + [e] else init
  }

  lemma {:induction false} MoneySnoc(j: Journal, e: Entry, id: TxId)
    ensures MoneyEntries(j + [e], id) == MoneyEntries(j, id) + if e.tx == id && MovesMoney(e) then [e] else []
  {
    assert (j + [e])[..|j|] == j;
    assert MoneyEntries(j, id) + [] == MoneyEntries(j, id);
  }

  lemma {:induction false} MoneyConcat(j: Journal, k: Journal, id: TxId)
    ensures MoneyEntries(j + k, id) == MoneyEntries(j, id) + MoneyEntries(k, id)
  {
    if |k| == 0 {
      assert j + k == j;
      assert MoneyEntries(j, id) + [] == MoneyEntries(j, id);
    } else {
      var n := |k| - 1;
      assert j + k == (j + k[..n]) + [k[n]];
      MoneyConcat(j, k[..n], id);
      MoneySnoc(j + k[..n], k[n], id);
    }
  }

  lemma {:induction false} AllMoney(entries: seq<Entry>, id: TxId)
    requires forall k :: 0 <= k < |entries| ==> entries[k].tx == id && MovesMoney(entries[k])
    ensures MoneyEntries(entries, id) == entries
  {
    if |entries| > 0 {
      AllMoney(entries[..|entries| - 1], id);
    }
  }

  lemma {:induction false} NoMoney(entries: seq<Entry>, id: TxId)
    requires forall k :: 0 <= k < |entries| ==> entries[k].tx != id || !MovesMoney(entries[k])
    ensures MoneyEntries(entries, id) == []
  {
    if |entries| > 0 {
      NoMoney(entries[..|entries| - 1], id);
    }
  }

  lemma {:induction false} MoneyEntriesAreMoney(j: Journal, id: TxId)
    ensures forall k :: 0 <= k < |MoneyEntries(j, id)| ==>
        MoneyEntries(j, id)[k].tx == id && MovesMoney(MoneyEntries(j, id)[k])
  {
    if |j| > 0 {
      MoneyEntriesAreMoney(j[..|j| - 1], id);
    }
  }

  // ---- Balances are made of them ----

  function RowWeight(j: Journal, id: TxId, w: WalletId): int {
    Sum(MoneyEntries(j, id), OverLegs(BalanceIn(w)))
  }

  function RowsWeight(j: Journal, n: nat, w: WalletId): int {
    if n == 0 then 0 else RowsWeight(j, n - 1, w) + RowWeight(j, n - 1, w)
  }

  lemma {:induction false} TrackingWeighsNothing(e: Entry, w: WalletId)
    requires !MovesMoney(e)
    ensures Sum(e.legs, BalanceIn(w)) == 0
  {
    SumZero(e.legs, BalanceIn(w));
  }

  function EntryWeight(e: Entry, w: WalletId): int {
    Sum(e.legs, BalanceIn(w))
  }

  lemma {:induction false} RowWeightSnoc(j: Journal, e: Entry, id: TxId, w: WalletId)
    ensures RowWeight(j + [e], id, w) == RowWeight(j, id, w)
        + if e.tx == id && MovesMoney(e) then EntryWeight(e, w) else 0
  {
    hide MovesMoney;
    MoneySnoc(j, e, id);
    if e.tx == id && MovesMoney(e) {
      SumSnoc(MoneyEntries(j, id), e, OverLegs(BalanceIn(w)));
    } else {
      assert MoneyEntries(j, id) + [] == MoneyEntries(j, id);
    }
  }

  lemma {:induction false} RowsWeightSnoc(j: Journal, e: Entry, n: nat, w: WalletId)
    ensures RowsWeight(j + [e], n, w) == RowsWeight(j, n, w)
        + if e.tx < n && MovesMoney(e) then EntryWeight(e, w) else 0
  {
    hide MovesMoney, RowWeight, EntryWeight;
    if n > 0 {
      RowsWeightSnoc(j, e, n - 1, w);
      RowWeightSnoc(j, e, n - 1, w);
    }
  }

  predicate TxsBelow(j: Journal, n: nat) {
    forall k :: 0 <= k < |j| ==> j[k].tx < n
  }

  lemma {:induction false} NoRows(n: nat, w: WalletId)
    ensures RowsWeight([], n, w) == 0
  {
    if n > 0 {
      NoRows(n - 1, w);
    }
  }

  lemma {:induction false} BalanceByRow(j: Journal, n: nat, w: WalletId)
    requires TxsBelow(j, n)
    ensures Balance(j, w) == RowsWeight(j, n, w)
  {
    if |j| == 0 {
      NoRows(n, w);
    } else {
      hide MovesMoney, RowsWeight;
      var init, e := j[..|j| - 1], j[|j| - 1];
      BalanceByRow(init, n, w);
      RowsWeightSnoc(init, e, n, w);
      JournalSnoc(init, e, BalanceIn(w));
      assert j == init + [e];
      if !MovesMoney(e) {
        TrackingWeighsNothing(e, w);
      }
    }
  }

  lemma {:induction false} SameRowsWeight(j: Journal, k: Journal, n: nat, w: WalletId)
    requires forall id :: 0 <= id < n ==> MoneyEntries(j, id) == MoneyEntries(k, id)
    ensures RowsWeight(j, n, w) == RowsWeight(k, n, w)
  {
    if n > 0 {
      SameRowsWeight(j, k, n - 1, w);
    }
  }

  // ---- A backfilled journal ----

  /** A row's live entries are the rebuilt ones, and a purchase that was ever completed has some. */
  predicate AgreesAt(s: State, id: TxId)
    requires id < |s.txs|
  {
    && MoneyEntries(s.journal, id) == Rebuilt(s, id)
    && (!Skipped(s.txs[id]) && IsPurchase(s.txs[id]) && WasCompleted(s, id) ==> Rebuilt(s, id) != [])
  }

  predicate Agree(s: State) {
    TxsBelow(s.journal, |s.txs|) && forall id :: 0 <= id < |s.txs| ==> AgreesAt(s, id)
  }

  /** What of the live journal was written after the ledger went live: the entries of some of the rows. */
  function LivePart(j: Journal, live: set<TxId>): Journal {
    if |j| == 0 then []
    else
      var init, e := LivePart(j[..|j| - 1], live), j[|j| - 1];
      if e.tx in live then init + [e] else init
  }

  lemma {:induction false} LivePartEntries(j: Journal, live: set<TxId>, id: TxId)
    ensures MoneyEntries(LivePart(j, live), id) == if id in live then MoneyEntries(j, id) else []
    ensures HasEntry(LivePart(j, live), id) ==> id in live
    ensures forall n :: TxsBelow(j, n) ==> TxsBelow(LivePart(j, live), n)
  {
    hide MovesMoney;
    if |j| > 0 {
      var init, e := j[..|j| - 1], j[|j| - 1];
      LivePartEntries(init, live, id);
      if e.tx in live {
        MoneySnoc(LivePart(init, live), e, id);
      }
      forall n | TxsBelow(j, n) ensures TxsBelow(init, n) {
      }
    }
  }

  lemma {:induction false} NoEntryNoMoney(j: Journal, id: TxId)
    requires !HasEntry(j, id)
    ensures MoneyEntries(j, id) == []
  {
    NoMoney(j, id);
  }

  /** One row of the script: a row without entries gets its own, a row with entries has them already. */
  lemma {:induction false} FillRow(s: State, before: Journal, row: TxId, live: bool, id: TxId)
    requires row < |s.txs| && AgreesAt(s, row)
    requires MoneyEntries(before, row) == if live then MoneyEntries(s.journal, row) else []
    requires HasEntry(before, row) ==> live
    ensures var after := if HasEntry(before, row) then before else before + Rebuilt(s, row);
            MoneyEntries(after, id) == if id == row then MoneyEntries(s.journal, row) else MoneyEntries(before, id)
  {
    hide Rebuilt, HasEntry, MovesMoney;
    if !HasEntry(before, row) {
      MoneyEntriesAreMoney(s.journal, row);
      RebuiltIsFor(s, row);
      NoEntryNoMoney(before, row);
      MoneyConcat(before, Rebuilt(s, row), id);
      if id == row {
        AllMoney(Rebuilt(s, row), row);
      } else {
        NoMoney(Rebuilt(s, row), id);
        assert MoneyEntries(before, id) + [] == MoneyEntries(before, id);
      }
    }
  }

  /** After the script: every row's entries are the live ones, whichever rows were live already. */
  lemma {:induction false} FilledEntries(s: State, live: set<TxId>, n: nat, id: TxId)
    requires Agree(s) && n <= |s.txs| && id < |s.txs|
    ensures MoneyEntries(Fill(s, LivePart(s.journal, live), n), id)
         == if id in live || id < n then MoneyEntries(s.journal, id) else []
  {
    hide Rebuilt, HasEntry, MovesMoney, MoneyEntries;
    var start := LivePart(s.journal, live);
    LivePartEntries(s.journal, live, id);
    if n > 0 {
      var row := n - 1;
      FilledEntries(s, live, row, id);
      FilledEntries(s, live, row, row);
      LivePartEntries(s.journal, live, row);
      assert AgreesAt(s, row);
      FilledRows(s, start, row, row);
      FillRow(s, Fill(s, start, row), row, row in live, id);
    }
  }

  lemma {:induction false} FilledBelow(s: State, j: Journal, n: nat)
    requires TxsBelow(j, |s.txs|) && n <= |s.txs|
    ensures TxsBelow(Fill(s, j, n), |s.txs|)
  {
    hide Rebuilt, HasEntry;
    if n > 0 {
      FilledBelow(s, j, n - 1);
      RebuiltIsFor(s, n - 1);
    }
  }

  /** Backfilling any part of the history that is missing gives every wallet the balance it has live. */
  lemma {:induction false} BackfillRestoresBalances(s: State, live: set<TxId>, w: WalletId)
    requires Agree(s)
    ensures Balance(Fill(s, LivePart(s.journal, live), |s.txs|), w) == Balance(s.journal, w)
  {
    hide MoneyEntries, Rebuilt, MovesMoney;
    var n, filled := |s.txs|, Fill(s, LivePart(s.journal, live), |s.txs|);
    forall id | 0 <= id < n ensures MoneyEntries(filled, id) == MoneyEntries(s.journal, id) {
      FilledEntries(s, live, n, id);
    }
    LivePartEntries(s.journal, live, 0);
    FilledBelow(s, LivePart(s.journal, live), n);
    SameRowsWeight(filled, s.journal, n, w);
    BalanceByRow(filled, n, w);
    BalanceByRow(s.journal, n, w);
  }
}
