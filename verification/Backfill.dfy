/** The one-off script that derives journal entries from transaction rows which predate the ledger. */
module Backfill {
  import opened Common
  import opened Sums
  import opened Ledger
  import opened Bank

  // ---- What one row is rebuilt into ----

  predicate EndsWith(text: string, suffix: string) {
    |suffix| <= |text| && text[|text| - |suffix|..] == suffix
  }

  /** Rows recognised by their key as legs of another row's entry. */
  predicate IsChildLeg(key: Key) {
    match key
    case SupportFund(_) => true
    case CreditFund(_) => true
    case CreditFundReverse(_) => true
    case RepaymentSlice(_, _) => true
    case OverdueAbsorb(text) => EndsWith(text, "-fee") || EndsWith(text, "-penalty")
    case QuitAbsorb(text) => EndsWith(text, "-fee") || EndsWith(text, "-penalty")
    case _ => false
  }

  predicate Skipped(t: Tx) {
    t.kind == Virtual || IsChildLeg(t.key)
  }

  /** The leg a sibling row contributes, if there is such a row. */
  function SiblingTo(s: State, key: Key): seq<Movement> {
    var found := FindKey(s.txs, key);
    if found.None? || s.txs[found.value].to.None? || s.txs[found.value].to.value >= |s.wallets| then []
    else [Movement(Own(s, s.txs[found.value].to.value), s.txs[found.value].amount)]
  }

  function SiblingFrom(s: State, key: Key): seq<Movement> {
    var found := FindKey(s.txs, key);
    if found.None? || s.txs[found.value].from.None? || s.txs[found.value].from.value >= |s.wallets| then []
    else [Movement(Own(s, s.txs[found.value].from.value), s.txs[found.value].amount)]
  }

  function SliceLegs(s: State, prefix: SplitPrefix): seq<Movement> {
    SiblingTo(s, SliceKey(prefix, FeeSlice)) + SiblingTo(s, SliceKey(prefix, PenaltySlice))
    + SiblingTo(s, SliceKey(prefix, UnblockSlice))
  }

  function MovementAmount(): Movement -> int {
    (m: Movement) => m.amount
  }

  /** The wallet names a repository that is not there. */
  predicate Dangling(s: State, w: Option<WalletId>) {
    w.Some? && w.value < |s.wallets| && LedgerHolder(s, w.value).Fail?
  }

  /** Cash in or out of a wallet, on its repository if it has one. */
  function CashEntry(s: State, id: TxId, w: Option<WalletId>, delta: int, cash: AccountCode): seq<Entry> {
    if w.None? || w.value >= |s.wallets| || LedgerHolder(s, w.value).Fail? then []
    else [Entry(id, Against(LedgerHolder(s, w.value).value, delta, cash))]
  }

  function MirrorEntry(s: State, id: TxId, w: Option<WalletId>, delta: int): seq<Entry> {
    if w.None? || w.value >= |s.wallets| || s.wallets[w.value].repository.None? then []
    else [Entry(id, Against(Own(s, w.value), delta, RepositoryAllocations))]
  }

  function HandleDeposit(s: State, id: TxId): seq<Entry>
    requires id < |s.txs|
  {
    var t := s.txs[id];
    if t.status != Completed || t.to.None? || t.to.value >= |s.wallets| then []
    else if t.completes.None? && IsRepayment(t) then
      var legs := [Movement(Own(s, t.to.value), t.amount)] + SliceLegs(s, OfRepayment(id));
      [Entry(id, CashInLegs(BankCash, s.wallets[t.to.value].typ.currency, Sum(legs, MovementAmount()), legs))]
    else CashEntry(s, id, t.to, t.amount, BankCash)
  }

  function HandleWithdraw(s: State, id: TxId): seq<Entry>
    requires id < |s.txs|
  {
    var t := s.txs[id];
    if Dangling(s, t.from) then []
    else CashEntry(s, id, t.from, -t.amount, CashAccount(t.cleared)) + MirrorEntry(s, id, t.from, -t.amount)
  }

  function HandleTransfer(s: State, id: TxId): seq<Entry>
    requires id < |s.txs|
  {
    var t := s.txs[id];
    if t.from.None? || t.to.None? || t.from.value >= |s.wallets| || t.to.value >= |s.wallets|
       || LedgerHolder(s, t.from.value).Fail? then []
    else [Entry(id, WalletToWallet(LedgerHolder(s, t.from.value).value, Own(s, t.to.value), t.amount))]
         + MirrorEntry(s, id, t.from, -t.amount)
  }

  function AbsorbedLegs(s: State, t: Tx): seq<Movement> {
    if t.key.Client? then SliceLegs(s, OfOverdue(t.key.key)) + SliceLegs(s, OfQuit(t.key.key)) else []
  }

  function HandleAdjustment(s: State, id: TxId): seq<Entry>
    requires id < |s.txs|
  {
    var t := s.txs[id];
    var legs := AbsorbedLegs(s, t);
    var target := if t.to.Some? then t.to else t.from;
    if |legs| > 0 then
      if t.from.None? || t.from.value >= |s.wallets| then []
      else [Entry(id, MultiLegs([Movement(Own(s, t.from.value), Sum(legs, MovementAmount()))], legs))]
    else if target.None? || target.value >= |s.wallets| then []
    else [Entry(id, Against(Own(s, target.value), if t.to.Some? then t.amount else -t.amount, LedgerAdjustments))]
  }

  predicate HasMarker(txs: seq<Tx>, p: TxId) {
    exists m :: 0 <= m < |txs| && txs[m].kind == Purchase && txs[m].status == Reversed && txs[m].related == Some(p)
  }

  predicate WasCompleted(s: State, p: TxId)
    requires p < |s.txs|
  {
    s.txs[p].status == Completed || (s.txs[p].status == Reversed && HasMarker(s.txs, p))
  }

  function FundedBy(s: State, id: TxId): seq<Movement> {
    SiblingFrom(s, SupportFund(id)) + SiblingFrom(s, CreditFund(id))
  }

  function PurchaseDebits(s: State, id: TxId): seq<Movement>
    requires id < |s.txs| && s.txs[id].from.Some? && s.txs[id].from.value < |s.wallets|
    requires |FundedBy(s, id)| > 0 || !Dangling(s, s.txs[id].from)
  {
    if |FundedBy(s, id)| > 0 then FundedBy(s, id)
    else [Movement(LedgerHolder(s, s.txs[id].from.value).value, s.txs[id].amount)]
  }

  function HandlePurchase(s: State, id: TxId): seq<Entry>
    requires id < |s.txs|
  {
    var t := s.txs[id];
    if t.from.None? || t.to.None? || t.from.value >= |s.wallets| || t.to.value >= |s.wallets| then []
    else if t.status == Reversed && t.related.Some? then
      var returned := SiblingTo(s, CreditFundReverse(t.related.value));
      var own := t.amount - Sum(returned, MovementAmount());
      [Entry(id, MultiLegs([Movement(Own(s, t.from.value), t.amount)], [Movement(Own(s, t.to.value), own)] + returned))]
    else if !WasCompleted(s, id) || (|FundedBy(s, id)| == 0 && Dangling(s, t.from)) then []
    else [Entry(id, MultiLegs(PurchaseDebits(s, id), [Movement(Own(s, t.to.value), t.amount)]))]
  }

  function Handle(s: State, id: TxId): seq<Entry>
    requires id < |s.txs|
  {
    match s.txs[id].kind
    case Deposit => HandleDeposit(s, id)
    case Withdraw => HandleWithdraw(s, id)
    case Transfer => HandleTransfer(s, id)
    case Adjustment => HandleAdjustment(s, id)
    case Purchase => HandlePurchase(s, id)
    case Virtual => []
  }

  /** The script throws over a row whose money moved on a repository that is not there. */
  predicate Throws(s: State, id: TxId)
    requires id < |s.txs|
  {
    var t := s.txs[id];
    match t.kind
    case Deposit => t.status == Completed && (t.completes.Some? || !IsRepayment(t)) && Dangling(s, t.to)
    case Withdraw => Dangling(s, t.from)
    case Transfer => t.to.Some? && t.to.value < |s.wallets| && Dangling(s, t.from)
    case Purchase => !(t.status == Reversed && t.related.Some?) && WasCompleted(s, id) && t.to.Some?
        && t.to.value < |s.wallets|
                     && |FundedBy(s, id)| == 0 && Dangling(s, t.from)
    case _ => false
  }

  lemma {:induction false} ThrowsForNothing(s: State, id: TxId)
    requires id < |s.txs| && Throws(s, id)
    ensures Handle(s, id) == []
  {
    hide SiblingTo, SiblingFrom, HasMarker;
  }

  predicate AllAccepted(entries: seq<Entry>) {
    forall k :: 0 <= k < |entries| ==> Accepts(entries[k].legs)
  }

  /** Each row has a small transaction of its own: an entry that is refused undoes it, for manual review. */
  function Rebuilt(s: State, id: TxId): seq<Entry>
    requires id < |s.txs|
  {
    if Skipped(s.txs[id]) || !AllAccepted(Handle(s, id)) then [] else Handle(s, id)
  }

  // ---- The script ----

  predicate HasEntry(j: Journal, id: TxId) {
    exists k :: 0 <= k < |j| && j[k].tx == id
  }

  /** The journal after the first `n` rows. */
  function Fill(s: State, j: Journal, n: nat): Journal
    requires n <= |s.txs|
  {
    if n == 0 then j
    else
      var before := Fill(s, j, n - 1);
      if HasEntry(before, n - 1) then before else before + Rebuilt(s, n - 1)
  }

  datatype Verdict = Folded | AlreadyPosted | NeedsReview | Posted | NoMoneyMoved

  /** What becomes of a row, told from the journal the script starts with. */
  function VerdictOn(s: State, existing: Journal, id: TxId): Verdict
    requires id < |s.txs|
  {
    if Skipped(s.txs[id]) then Folded
    else if HasEntry(existing, id) then AlreadyPosted
    else if Throws(s, id) || !AllAccepted(Handle(s, id)) then NeedsReview
    else if |Handle(s, id)| > 0 then Posted else NoMoneyMoved
  }

  function Count(s: State, existing: Journal, n: nat, verdict: Verdict): nat
    requires n <= |s.txs|
  {
    if n == 0 then 0 else Count(s, existing, n - 1, verdict) + if VerdictOn(s, existing, n - 1) == verdict then 1 else 0
  }

  datatype Report = Report(posted: nat, alreadyPosted: nat, noMoneyMoved: nat, needsReview: nat)

  function ReportOn(s: State, existing: Journal, n: nat): Report
    requires n <= |s.txs|
  {
    Report(Count(s, existing, n, Posted), Count(s, existing, n, AlreadyPosted), Count(s, existing, n, NoMoneyMoved),
           Count(s, existing, n, NeedsReview))
  }

  /** The entries already written by this run are never mistaken for older ones, and a dry run reports
      what the real run would do. */
  method BackfillAll(s: State, existing: Journal, dryRun: bool) returns (journal: Journal, report: Report)
    ensures journal == if dryRun then existing else Fill(s, existing, |s.txs|)
    ensures report == ReportOn(s, existing, |s.txs|)
  {
    hide Handle, HasEntry, AllAccepted, IsChildLeg, Throws;
    journal := existing;
    report := Report(0, 0, 0, 0);
    for id := 0 to |s.txs|
      invariant journal == if dryRun then existing else Fill(s, existing, id)
      invariant report == ReportOn(s, existing, id)
    {
      var t := s.txs[id];
      FilledRows(s, existing, id, id);
      if Skipped(t) {
        assert journal + [] == journal;
        continue;
      }
      if HasEntry(journal, id) {
        report := report.(alreadyPosted := report.alreadyPosted + 1);
        continue;
      }
      if Throws(s, id) {
        ThrowsForNothing(s, id);
        report := report.(needsReview := report.needsReview + 1);
        assert journal + [] == journal;
        continue;
      }
      var entries := Handle(s, id);
      if !AllAccepted(entries) {
        report := report.(needsReview := report.needsReview + 1);
        assert journal + [] == journal;
        continue;
      }
      if |entries| > 0 {
        report := report.(posted := report.posted + 1);
      } else {
        report := report.(noMoneyMoved := report.noMoneyMoved + 1);
      }
      if !dryRun {
        journal := journal + entries;
      }
    }
  }

  /** What the report calls posted is what a full run added entries for. */
  lemma {:induction false} PostedIsNew(s: State, existing: Journal, id: TxId)
    requires id < |s.txs|
    ensures var after := Fill(s, existing, |s.txs|);
            && (HasEntry(after, id) && !HasEntry(existing, id) <==> VerdictOn(s, existing, id) == Posted)
            && VerdictOn(s, after, id) != Posted
  {
    hide Handle, HasEntry, Fill, Throws;
    FilledRows(s, existing, |s.txs|, id);
    if Throws(s, id) {
      ThrowsForNothing(s, id);
    }
  }

  // ---- Interrupting and running again ----

  lemma {:induction false} RebuiltIsFor(s: State, id: TxId)
    requires id < |s.txs|
    ensures forall k :: 0 <= k < |Rebuilt(s, id)| ==> Rebuilt(s, id)[k].tx == id
  {
  }

  /** Entries of `more` are for one row. */
  lemma {:induction false} EntriesAfter(j: Journal, more: seq<Entry>, id: TxId, row: TxId)
    requires forall k :: 0 <= k < |more| ==> more[k].tx == row
    ensures HasEntry(j + more, id) <==> HasEntry(j, id) || (id == row && |more| > 0)
  {
    if HasEntry(j, id) {
      var k :| 0 <= k < |j| && j[k].tx == id;
      assert (j + more)[k].tx == id;
    }
    if id == row && |more| > 0 {
      assert (j + more)[|j|].tx == id;
    }
    if HasEntry(j + more, id) && !HasEntry(j, id) {
      var k :| 0 <= k < |j + more| && (j + more)[k].tx == id;
      assert k >= |j|;
    }
  }

  /** What the script has done for a row once it is past it. */
  lemma {:induction false} FilledRows(s: State, j: Journal, n: nat, id: TxId)
    requires n <= |s.txs|
    ensures HasEntry(Fill(s, j, n), id) <==> HasEntry(j, id) || (id < n && |Rebuilt(s, id)| > 0)
  {
    hide Rebuilt, HasEntry;
    if n > 0 {
      FilledRows(s, j, n - 1, id);
      FilledRows(s, j, n - 1, n - 1);
      RebuiltIsFor(s, n - 1);
      EntriesAfter(Fill(s, j, n - 1), Rebuilt(s, n - 1), id, n - 1);
    }
  }

  /** Stopping the script anywhere and running it again gives what one full run gives. */
  lemma {:induction false} Resumable(s: State, j: Journal, stopped: nat, n: nat)
    requires n <= |s.txs| && stopped <= |s.txs|
    ensures n <= stopped ==> Fill(s, Fill(s, j, stopped), n) == Fill(s, j, stopped)
    ensures stopped <= n ==> Fill(s, Fill(s, j, stopped), n) == Fill(s, j, n)
  {
    hide Rebuilt, HasEntry;
    if n > 0 {
      Resumable(s, j, stopped, n - 1);
      FilledRows(s, j, stopped, n - 1);
      var done := Fill(s, j, stopped);
      if n <= stopped && !HasEntry(done, n - 1) {
        assert Rebuilt(s, n - 1) == [];
        assert done + [] == done;
      }
    }
  }

  /** The journal of a script that was interrupted and started again any number of times. */
  function FillRepeatedly(s: State, j: Journal, stops: seq<nat>): Journal
    requires forall k :: 0 <= k < |stops| ==> stops[k] <= |s.txs|
  {
    if |stops| == 0 then j
    else Fill(s, FillRepeatedly(s, j, stops[..|stops| - 1]), stops[|stops| - 1])
  }

  function Furthest(stops: seq<nat>): nat {
    if |stops| == 0 then 0
    else
      var before := Furthest(stops[..|stops| - 1]);
      if before < stops[|stops| - 1] then stops[|stops| - 1] else before
  }

  /** Any number of runs, each stopped anywhere, amount to one run as far as the furthest of them. */
  lemma {:induction false} RunsAddUp(s: State, j: Journal, stops: seq<nat>)
    requires forall k :: 0 <= k < |stops| ==> stops[k] <= |s.txs|
    ensures Furthest(stops) <= |s.txs| && FillRepeatedly(s, j, stops) == Fill(s, j, Furthest(stops))
  {
    if |stops| > 0 {
      RunsAddUp(s, j, stops[..|stops| - 1]);
      Resumable(s, j, Furthest(stops[..|stops| - 1]), stops[|stops| - 1]);
    }
  }
}
