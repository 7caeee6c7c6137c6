/** Concurrent transfers between plain wallets. Each transfer is a database transaction of its own:
    it locks its two wallet rows in ascending order of id, reads the balance it will spend, records its
    postings, and commits, which releases both locks. Any number of them interleave freely. */
module Transfers {
  import opened Common
  import opened Ledger

  datatype Request = Request(from: WalletId, to: WalletId, amount: nat)

  /** How far a transfer has come. What it posts is invisible to others until it commits. */
  datatype Phase = Begun | LockedFirst | LockedBoth | HasRead(balance: int) | Posted(balance: int) | Finished

  datatype State = State(
    requests: seq<Request>,
    phases: seq<Phase>,
    balances: seq<int>,
    locks: seq<Option<nat>>,
    finished: seq<nat>)

  predicate WellFormed(s: State) {
    && |s.phases| == |s.requests| && |s.locks| == |s.balances|
    && forall i :: 0 <= i < |s.requests| ==>
         s.requests[i].from < |s.balances| && s.requests[i].to < |s.balances| && s.requests[i].from != s.requests[i].to
  }

  function First(r: Request): WalletId {
    if r.from < r.to then r.from else r.to
  }

  function Second(r: Request): WalletId {
    if r.from < r.to then r.to else r.from
  }

  /** The wallet a transfer has to lock next. */
  function Wanted(r: Request, p: Phase): Option<WalletId> {
    match p
    case Begun => Some(First(r))
    case LockedFirst => Some(Second(r))
    case _ => None
  }

  predicate CanStep(s: State, i: nat)
    requires WellFormed(s)
  {
    i < |s.requests| && s.phases[i] != Finished
    && (Wanted(s.requests[i], s.phases[i]).Some? ==> s.locks[Wanted(s.requests[i], s.phases[i]).value].None?)
  }

  /** A transfer on its own: refused without effect when the sender has too little. */
  function Alone(balances: seq<int>, r: Request): seq<int>
    requires r.from < |balances| && r.to < |balances| && r.from != r.to
  {
    if balances[r.from] - r.amount < 0 then balances
    else balances[r.from := balances[r.from] - r.amount][r.to := balances[r.to] + r.amount]
  }

  function Finish(s: State, i: nat): State
    requires WellFormed(s) && i < |s.requests|
  {
    var r := s.requests[i];
    s.(phases := s.phases[i := Finished], locks := s.locks[r.from := None][r.to := None], finished := s.finished + [i])
  }

  /** One step of transfer `i`; a transfer that waits for a lock stays where it is. */
  function Step(s: State, i: nat): State
    requires WellFormed(s)
  {
    if !CanStep(s, i) then s
    else
      var r := s.requests[i];
      match s.phases[i]
      case Begun => s.(phases := s.phases[i := LockedFirst], locks := s.locks[First(r) := Some(i)])
      case LockedFirst => s.(phases := s.phases[i := LockedBoth], locks := s.locks[Second(r) := Some(i)])
      case LockedBoth => s.(phases := s.phases[i := HasRead(s.balances[r.from])])
      case HasRead(balance) =>
        if balance - r.amount < 0 then Finish(s, i) else s.(phases := s.phases[i := Posted(balance)])
      case Posted(balance) =>
        Finish(s.(balances := s.balances[r.from := balance - r.amount][r.to := s.balances[r.to] + r.amount]), i)
      case Finished => s
  }

  // ---- What every interleaving keeps ----

  predicate Holds(s: State, i: nat, w: WalletId)
    requires WellFormed(s) && i < |s.requests|
  {
    var r, p := s.requests[i], s.phases[i];
    if p == Begun || p == Finished then false
    else if p == LockedFirst then w == First(r)
    else w == r.from || w == r.to
  }

  /** The transfers in the order in which they finished, run one after the other. */
  function Serial(requests: seq<Request>, balances: seq<int>, order: seq<nat>): (after: seq<int>)
    requires forall i :: 0 <= i < |requests| ==>
               requests[i].from < |balances| && requests[i].to < |balances| && requests[i].from != requests[i].to
    ensures |after| == |balances|
  {
    if |order| == 0 then balances
    else
      var before := Serial(requests, balances, order[..|order| - 1]);
      var i := order[|order| - 1];
      if i < |requests| then Alone(before, requests[i]) else before
  }

  /** A lock is held by exactly the transfer that took it. */
  predicate LocksOk(s: State)
    requires WellFormed(s)
  {
    && (forall w :: 0 <= w < |s.locks| && s.locks[w].Some? ==> s.locks[w].value < |s.requests|)
    && (forall i, w :: 0 <= i < |s.requests| && 0 <= w < |s.locks| ==> (Holds(s, i, w) <==> s.locks[w] == Some(i)))
  }

  /** What was read is still the balance: nobody else can move that wallet. */
  predicate ReadsOk(s: State)
    requires WellFormed(s)
  {
    forall i :: 0 <= i < |s.requests| ==>
      match s.phases[i]
      case HasRead(balance) => balance == s.balances[s.requests[i].from]
      case Posted(balance) => balance == s.balances[s.requests[i].from] && balance >= s.requests[i].amount
      case _ => true
  }

  /** The finished transfers are listed, each once. */
  predicate ListOk(s: State)
    requires WellFormed(s)
  {
    && (forall k :: 0 <= k < |s.finished| ==> s.finished[k] < |s.requests| && s.phases[s.finished[k]].Finished?)
    && (forall i :: 0 <= i < |s.requests| && s.phases[i].Finished? ==> i in s.finished)
    && (forall j, k :: 0 <= j < k < |s.finished| ==> s.finished[j] != s.finished[k])
  }

  predicate BalancesOk(s: State, start: seq<int>)
    requires WellFormed(s)
  {
    && |start| == |s.balances| && (forall w :: 0 <= w < |s.balances| ==> s.balances[w] >= 0)
    && s.balances == Serial(s.requests, start, s.finished)
  }

  predicate Inv(s: State, start: seq<int>) {
    WellFormed(s) && LocksOk(s) && ReadsOk(s) && ListOk(s) && BalancesOk(s, start)
  }

  predicate WantsLock(s: State, i: nat)
    requires WellFormed(s)
  {
    CanStep(s, i) && Wanted(s.requests[i], s.phases[i]).Some?
  }

  predicate Ends(s: State, i: nat)
    requires WellFormed(s)
  {
    CanStep(s, i)
    && (s.phases[i].Posted? || (s.phases[i].HasRead? && s.phases[i].balance < s.requests[i].amount))
  }

  lemma {:induction false} LockStep(s: State, i: nat)
    requires WellFormed(s) && LocksOk(s) && WantsLock(s, i)
    ensures LocksOk(Step(s, i))
  {
    var s', w0 := Step(s, i), Wanted(s.requests[i], s.phases[i]).value;
    forall k, w | 0 <= k < |s.requests| && 0 <= w < |s.locks| ensures Holds(s', k, w) <==> s'.locks[w] == Some(k) {
      assert Holds(s, k, w) <==> s.locks[w] == Some(k);
      assert k != i ==> Holds(s', k, w) == Holds(s, k, w);
    }
  }

  lemma {:induction false} OtherStepsKeepLocks(s: State, i: nat)
    requires WellFormed(s) && LocksOk(s) && CanStep(s, i) && !WantsLock(s, i) && !Ends(s, i)
    ensures LocksOk(Step(s, i))
  {
    var s' := Step(s, i);
    forall k, w | 0 <= k < |s.requests| && 0 <= w < |s.locks| ensures Holds(s', k, w) <==> s'.locks[w] == Some(k) {
      assert Holds(s, k, w) <==> s.locks[w] == Some(k);
    }
  }

  lemma {:induction false} EndReleases(s: State, i: nat)
    requires WellFormed(s) && LocksOk(s) && Ends(s, i)
    ensures LocksOk(Step(s, i))
  {
    var s', r := Step(s, i), s.requests[i];
    assert Holds(s, i, r.from) && Holds(s, i, r.to);
    forall k, w | 0 <= k < |s.requests| && 0 <= w < |s.locks| ensures Holds(s', k, w) <==> s'.locks[w] == Some(k) {
      assert Holds(s, k, w) <==> s.locks[w] == Some(k);
      assert Holds(s, i, w) <==> s.locks[w] == Some(i);
      assert k != i ==> Holds(s', k, w) == Holds(s, k, w);
    }
  }

  /** Nobody who has read a balance has read one of the wallets another transfer holds. */
  lemma {:induction false} NobodyElseRead(s: State, i: nat, k: nat)
    requires WellFormed(s) && LocksOk(s) && i < |s.requests| && k < |s.requests| && i != k
    requires s.phases[i].Posted? && (s.phases[k].HasRead? || s.phases[k].Posted?)
    ensures s.requests[k].from != s.requests[i].from && s.requests[k].from != s.requests[i].to
  {
    assert Holds(s, k, s.requests[k].from);
    assert Holds(s, i, s.requests[i].from) && Holds(s, i, s.requests[i].to);
  }

  lemma {:induction false} StepKeepsReads(s: State, i: nat)
    requires WellFormed(s) && LocksOk(s) && ReadsOk(s) && CanStep(s, i)
    ensures ReadsOk(Step(s, i))
  {
    hide LocksOk;
    var s' := Step(s, i);
    forall k | 0 <= k < |s.requests| && k != i && s.phases[i].Posted? && (s.phases[k].HasRead? || s.phases[k].Posted?)
      ensures s.requests[k].from != s.requests[i].from && s.requests[k].from != s.requests[i].to
    {
      NobodyElseRead(s, i, k);
    }
  }

  lemma {:induction false} StepKeepsList(s: State, i: nat)
    requires WellFormed(s) && ListOk(s) && CanStep(s, i)
    ensures ListOk(Step(s, i))
    ensures Step(s, i).finished == if Ends(s, i) then s.finished + [i] else s.finished
  {
    var s' := Step(s, i);
    forall k | 0 <= k < |s.requests| && s'.phases[k].Finished? ensures k in s'.finished {
      if k == i {
        assert s'.finished[|s.finished|] == i;
      } else {
        assert k in s.finished;
      }
    }
  }

  /** A transfer that finishes has the effect it would have had on its own at that very moment. */
  lemma {:induction false} EndIsAlone(s: State, i: nat)
    requires WellFormed(s) && ReadsOk(s) && CanStep(s, i)
    ensures Step(s, i).balances == if Ends(s, i) then Alone(s.balances, s.requests[i]) else s.balances
  {
  }

  lemma {:induction false} StepKeepsBalances(s: State, i: nat, start: seq<int>)
    requires Inv(s, start) && CanStep(s, i)
    ensures BalancesOk(Step(s, i), start)
  {
    hide LocksOk, Step;
    var s' := Step(s, i);
    StepShape(s, i);
    EndIsAlone(s, i);
    StepKeepsList(s, i);
    if Ends(s, i) {
      assert s'.finished[..|s.finished|] == s.finished;
    }
  }

  lemma {:induction false} StepShape(s: State, i: nat)
    requires WellFormed(s)
    ensures WellFormed(Step(s, i)) && Step(s, i).requests == s.requests && |Step(s, i).balances| == |s.balances|
  {
  }

  lemma {:induction false} StepKeeps(s: State, i: nat, start: seq<int>)
    requires Inv(s, start)
    ensures Inv(Step(s, i), start) && Step(s, i).requests == s.requests
  {
    hide LocksOk, ReadsOk, ListOk, BalancesOk;
    StepShape(s, i);
    if CanStep(s, i) {
      if WantsLock(s, i) {
        LockStep(s, i);
      } else if Ends(s, i) {
        EndReleases(s, i);
      } else {
        OtherStepsKeepLocks(s, i);
      }
      StepKeepsReads(s, i);
      StepKeepsList(s, i);
      StepKeepsBalances(s, i, start);
    }
  }

  // ---- No wait cycle ----

  predicate Done(s: State)
    requires WellFormed(s)
  {
    forall i :: 0 <= i < |s.requests| ==> s.phases[i].Finished?
  }

  /** From any unfinished transfer, following who holds the lock it waits for leads to one that can step:
      every hop waits for a wallet with a higher id. */
  lemma {:induction false} SomeoneCanStep(s: State, i: nat) returns (k: nat)
    requires WellFormed(s) && LocksOk(s) && i < |s.requests| && !s.phases[i].Finished?
    ensures CanStep(s, k)
    decreases if Wanted(s.requests[i], s.phases[i]).Some?
              then |s.balances| - Wanted(s.requests[i], s.phases[i]).value else 0
  {
    if CanStep(s, i) {
      k := i;
    } else {
      var w := Wanted(s.requests[i], s.phases[i]).value;
      var holder := s.locks[w].value;
      assert Holds(s, holder, w);
      if CanStep(s, holder) {
        k := holder;
      } else {
        assert Wanted(s.requests[holder], s.phases[holder]) == Some(Second(s.requests[holder]));
        k := SomeoneCanStep(s, holder);
      }
    }
  }

  /** In every reachable state some transfer can step unless all have finished: no deadlock. */
  lemma {:induction false} NoDeadlock(s: State, start: seq<int>)
    requires Inv(s, start) && !Done(s)
    ensures exists k :: CanStep(s, k)
  {
    var i :| 0 <= i < |s.requests| && !s.phases[i].Finished?;
    var k := SomeoneCanStep(s, i);
  }

  function Rank(p: Phase): nat {
    match p
    case Begun => 5
    case LockedFirst => 4
    case LockedBoth => 3
    case HasRead(_) => 2
    case Posted(_) => 1
    case Finished => 0
  }

  function Left(phases: seq<Phase>): nat {
    if |phases| == 0 then 0 else Left(phases[..|phases| - 1]) + Rank(phases[|phases| - 1])
  }

  lemma {:induction false} LeftFalls(before: seq<Phase>, after: seq<Phase>, i: nat)
    requires i < |before| == |after| && Rank(after[i]) < Rank(before[i])
    requires forall k :: 0 <= k < |before| && k != i ==> after[k] == before[k]
    ensures Left(after) < Left(before)
  {
    var n := |before| - 1;
    if i == n {
      assert before[..n] == after[..n];
    } else {
      LeftFalls(before[..n], after[..n], i);
    }
  }

  /** Every step taken brings the end nearer, so no interleaving goes on for ever. */
  lemma {:induction false} StepsRunOut(s: State, i: nat)
    requires WellFormed(s) && CanStep(s, i)
    ensures Left(Step(s, i).phases) < Left(s.phases)
  {
    LeftFalls(s.phases, Step(s, i).phases, i);
  }

  // ---- Whole interleavings ----

  function Interleave(s: State, schedule: seq<nat>): (s': State)
    requires WellFormed(s)
    ensures WellFormed(s') && s'.requests == s.requests
  {
    if |schedule| == 0 then s
    else
      var before := Interleave(s, schedule[..|schedule| - 1]);
      StepShape(before, schedule[|schedule| - 1]);
      Step(before, schedule[|schedule| - 1])
  }

  predicate AtStart(s: State) {
    && WellFormed(s) && s.finished == []
    && (forall i :: 0 <= i < |s.phases| ==> s.phases[i].Begun?)
    && (forall w :: 0 <= w < |s.balances| ==> s.locks[w].None? && s.balances[w] >= 0)
  }

  lemma {:induction false} InterleavingKeeps(s: State, schedule: seq<nat>)
    requires AtStart(s)
    ensures Inv(Interleave(s, schedule), s.balances)
  {
    hide LocksOk, ReadsOk, ListOk, BalancesOk;
    if |schedule| == 0 {
      StartIsSound(s);
    } else {
      InterleavingKeeps(s, schedule[..|schedule| - 1]);
      StepKeeps(Interleave(s, schedule[..|schedule| - 1]), schedule[|schedule| - 1], s.balances);
    }
  }

  lemma {:induction false} StartIsSound(s: State)
    requires AtStart(s)
    ensures Inv(s, s.balances)
  {
  }

  /** Each transfer exactly once. */
  predicate Permutes(order: seq<nat>, n: nat) {
    && (forall k :: 0 <= k < |order| ==> order[k] < n)
    && (forall j, k :: 0 <= j < k < |order| ==> order[j] != order[k])
    && (forall i :: 0 <= i < n ==> i in order)
  }

  /** Whatever the interleaving: no wait cycle, no negative balance, and once all transfers have finished
      the balances are those of running all of them serially, in the order in which they finished. */
  lemma {:induction false} TransfersAreSerializable(s: State, schedule: seq<nat>)
    requires AtStart(s)
    ensures var s' := Interleave(s, schedule);
            && (forall w :: 0 <= w < |s'.balances| ==> s'.balances[w] >= 0)
            && (!Done(s') ==> exists k :: CanStep(s', k))
            && (Done(s') ==> Permutes(s'.finished, |s.requests|)
                             && s'.balances == Serial(s.requests, s.balances, s'.finished))
  {
    InterleavingKeeps(s, schedule);
    var s' := Interleave(s, schedule);
    if !Done(s') {
      NoDeadlock(s', s.balances);
    }
  }
}
