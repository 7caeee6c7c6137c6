/** How idempotency keys read, and which of them read alike. The table's unique index compares the texts. */
module Keys {
  import opened Common
  import opened Ledger
  import opened Bank

  /** The texts of ids, rails and minutes. */
  datatype Names = Names(
    tx: TxId -> string, wallet: WalletId -> string, installment: nat -> string, minute: nat -> string,
    rail: WalletId -> Option<string>)

  const UUID := 36
  const MINUTE := 16

  ghost predicate AreIds(name: nat -> string) {
    && (forall a, b :: name(a) == name(b) ==> a == b)
    && (forall a :: |name(a)| == UUID)
  }

  /** Ids are UUIDs, minutes the first sixteen characters of an ISO time, and no rail has a colon in its name. */
  ghost predicate Proper(n: Names) {
    && AreIds(n.tx) && AreIds(n.wallet) && AreIds(n.installment)
    && (forall a, b :: n.minute(a) == n.minute(b) ==> a == b)
    && (forall a :: |n.minute(a)| == MINUTE && '0' <= n.minute(a)[MINUTE - 1] <= '9')
    && (forall w :: n.rail(w).Some? ==> ':' !in n.rail(w).value)
  }

  const DIGITS := "0123456789"

  function Decimal(n: nat): (r: string)
    ensures |r| > 0 && (|r| == 1 <==> n < 10)
  {
    if n < 10 then [DIGITS[n]] else Decimal(n / 10) + [DIGITS[n % 10]]
  }

  function SweepTail(n: Names, k: Key): string
    requires IsSweep(k)
  {
    match k
    case Sweep(_, m) => n.minute(m)
    case SweepSlice(_, p, i, m) => n.tx(p) + ":" + Decimal(i) + ":" + n.minute(m)
    case PayoutFee(payout) => SweepTail(n, payout) + ":fee"
  }

  predicate IsPayout(k: Key) {
    k.Sweep? || k.SweepSlice?
  }

  /** A payout of a sweep, or the fee taken from one. */
  predicate IsSweep(k: Key) {
    IsPayout(k) || (k.PayoutFee? && IsPayout(k.payout))
  }

  /** Every key the service writes: only sweeps take payout fees. */
  predicate Written(k: Key) {
    k.PayoutFee? ==> IsPayout(k.payout)
  }

  function Payer(k: Key): WalletId
    requires IsSweep(k)
  {
    match k
    case Sweep(w, _) => w
    case SweepSlice(w, _, _, _) => w
    case PayoutFee(payout) => Payer(payout)
  }

  function SweepHead(n: Names, w: WalletId): string {
    if n.rail(w).Some? then "rail-settlement:" + n.rail(w).value else "auto-withdraw"
  }

  function Render(n: Names, k: Key): string {
    match k
    case Client(text) => text
    case SupportFund(p) => "support-fund:" + n.tx(p)
    case CreditFund(p) => "credit-fund:" + n.tx(p)
    case CreditFundReverse(p) => "credit-fund-reverse:" + n.tx(p)
    case CreditDraw(p) => "credit-draw:" + n.tx(p)
    case CreditDrawReverse(p) => "credit-draw-reverse:" + n.tx(p)
    case RepaymentSlice(t, slice) => "repayment-split:" + n.tx(t) + Suffix(slice)
    case OverdueAbsorb(text) => "overdue-absorb:" + text
    case QuitAbsorb(text) => "quit-absorb:" + text
    case InstallmentRestore(i) => "installment-restore:" + n.installment(i)
    case SupportTopUp(p, attempt) =>
      "support-topup:" + n.tx(p) + if attempt == 0 then "" else ":" + Decimal(attempt + 1)
    case Sweep(w, m) => SweepHead(n, w) + ":" + n.wallet(w) + ":" + n.minute(m)
    case SweepSlice(w, p, i, m) =>
      SweepHead(n, w) + ":" + n.wallet(w) + ":" + n.tx(p) + ":" + Decimal(i) + ":" + n.minute(m)
    case PayoutFee(payout) => Render(n, payout) + ":fee"
  }

  // ---- The text before the first colon, and the rest ----

  function Head(n: Names, k: Key): string
    requires !k.Client? && Written(k)
  {
    if IsSweep(k) then (if n.rail(Payer(k)).Some? then "rail-settlement" else "auto-withdraw")
    else match k
    case SupportFund(_) => "support-fund"
    case CreditFund(_) => "credit-fund"
    case CreditFundReverse(_) => "credit-fund-reverse"
    case CreditDraw(_) => "credit-draw"
    case CreditDrawReverse(_) => "credit-draw-reverse"
    case RepaymentSlice(_, _) => "repayment-split"
    case OverdueAbsorb(_) => "overdue-absorb"
    case QuitAbsorb(_) => "quit-absorb"
    case InstallmentRestore(_) => "installment-restore"
    case SupportTopUp(_, _) => "support-topup"
    case _ => ""
  }

  function Rest(n: Names, k: Key): string
    requires !k.Client? && Written(k)
  {
    if IsSweep(k) then
      var own := n.wallet(Payer(k)) + (":" + SweepTail(n, k));
      if n.rail(Payer(k)).Some? then n.rail(Payer(k)).value + (":" + own) else own
    else match k
    case SupportFund(p) => n.tx(p)
    case CreditFund(p) => n.tx(p)
    case CreditFundReverse(p) => n.tx(p)
    case CreditDraw(p) => n.tx(p)
    case CreditDrawReverse(p) => n.tx(p)
    case RepaymentSlice(t, slice) => n.tx(t) + Suffix(slice)
    case OverdueAbsorb(text) => text
    case QuitAbsorb(text) => text
    case InstallmentRestore(i) => n.installment(i)
    case SupportTopUp(p, attempt) => n.tx(p) + if attempt == 0 then "" else ":" + Decimal(attempt + 1)
    case _ => ""
  }

  /** The heads the service uses: a client's key that begins with none of them and a colon spells no other key. */
  const RESERVED := ["support-fund", "credit-fund", "credit-fund-reverse", "credit-draw", "credit-draw-reverse",
                     "repayment-split", "overdue-absorb", "quit-absorb", "installment-restore", "support-topup",
                     "rail-settlement", "auto-withdraw"]

  predicate Reserved(text: string) {
    exists i :: 0 <= i < |RESERVED| && RESERVED[i] + ":" <= text
  }

  /** Which kind of key a head stands for, told by its length and one letter. */
  function Kind(k: Key): nat {
    match k
    case Client(_) => 0
    case SupportFund(_) => 1
    case CreditFund(_) => 2
    case CreditFundReverse(_) => 3
    case CreditDraw(_) => 4
    case CreditDrawReverse(_) => 5
    case RepaymentSlice(_, _) => 6
    case OverdueAbsorb(_) => 7
    case QuitAbsorb(_) => 8
    case InstallmentRestore(_) => 9
    case SupportTopUp(_, _) => 10
    case _ => 11
  }

  function KindOf(head: string): nat
    requires |head| > 7
  {
    if |head| == 12 then 1
    else if |head| == 11 then if head[7] == 'f' then 2 else if head[7] == 'd' then 4 else 8
    else if |head| == 19 then if head[7] == 'f' then 3 else if head[7] == 'd' then 5 else 9
    else if |head| == 14 then 7
    else if |head| == 13 then if head[7] == '-' then 10 else 11
    else if head[7] == 'n' then 6 else 11
  }

  lemma {:induction false} HeadTells(n: Names, k: Key)
    requires !k.Client? && Written(k)
    ensures |Head(n, k)| > 7 && KindOf(Head(n, k)) == Kind(k) && ':' !in Head(n, k) && Head(n, k) in RESERVED
  {
  }

  lemma {:induction false} SplitsAtColon(n: Names, k: Key)
    requires !k.Client? && Written(k)
    ensures Render(n, k) == Head(n, k) + (":" + Rest(n, k))
  {
    if IsSweep(k) {
      SweepSplits(n, k);
    }
  }

  lemma {:induction false} SweepSplits(n: Names, k: Key)
    requires IsSweep(k)
    ensures Render(n, k) == Head(n, k) + (":" + Rest(n, k))
  {
    var w := Payer(k);
    assert Render(n, k) == SweepHead(n, w) + (":" + (n.wallet(w) + (":" + SweepTail(n, k)))) by {
      if k.PayoutFee? {
        PayoutSplits(n, k.payout);
        assert Render(n, k) == Render(n, k.payout) + ":fee";
      } else {
        PayoutSplits(n, k);
      }
    }
  }

  lemma {:induction false} PayoutSplits(n: Names, k: Key)
    requires IsPayout(k)
    ensures Render(n, k) == SweepHead(n, Payer(k)) + (":" + (n.wallet(Payer(k)) + (":" + SweepTail(n, k))))
  {
  }

  lemma {:induction false} SameHead(a: string, x: string, b: string, y: string)
    requires a + (":" + x) == b + (":" + y) && ':' !in a && ':' !in b
    ensures a == b && x == y
  {
    var s := a + (":" + x);
    assert s[|a|] == ':' && s[|b|] == ':';
    assert forall i :: 0 <= i < |a| ==> s[i] == a[i];
    assert forall i :: 0 <= i < |b| ==> s[i] == b[i];
    SamePrefix(a, ":" + x, b, ":" + y);
    SamePrefix(":", x, ":", y);
  }

  lemma {:induction false} SamePrefix(a: string, x: string, b: string, y: string)
    requires a + x == b + y && |a| == |b|
    ensures a == b && x == y
  {
    assert a == (a + x)[..|a|] && b == (b + y)[..|b|];
    assert x == (a + x)[|a|..] && y == (b + y)[|b|..];
  }

  lemma {:induction false} SameSuffix(a: string, x: string, b: string, y: string)
    requires a + x == b + y && |x| == |y|
    ensures a == b && x == y
  {
    SamePrefix(a, x, b, y);
  }

  lemma {:induction false} DecimalTells(a: nat, b: nat)
    requires Decimal(a) == Decimal(b)
    ensures a == b
  {
    if a >= 10 {
      SameSuffix(Decimal(a / 10), [DIGITS[a % 10]], Decimal(b / 10), [DIGITS[b % 10]]);
      DecimalTells(a / 10, b / 10);
      DigitTells(a % 10, b % 10);
    } else {
      DigitTells(a, b);
    }
  }

  lemma {:induction false} DigitTells(a: nat, b: nat)
    requires a < 10 && b < 10 && [DIGITS[a]] == [DIGITS[b]]
    ensures a == b
  {
    assert DIGITS[a] == [DIGITS[a]][0] && DIGITS[b] == [DIGITS[b]][0];
  }

  // ---- Which keys read alike ----

  lemma {:induction false} SlicesTell(n: Names, a: Key, b: Key)
    requires Proper(n) && a.RepaymentSlice? && b.RepaymentSlice? && Rest(n, a) == Rest(n, b)
    ensures a == b
  {
    SamePrefix(n.tx(a.repayment), Suffix(a.slice), n.tx(b.repayment), Suffix(b.slice));
    assert |Suffix(a.slice)| == |Suffix(b.slice)|;
  }

  lemma {:induction false} TopUpsTell(n: Names, a: Key, b: Key)
    requires Proper(n) && a.SupportTopUp? && b.SupportTopUp? && Rest(n, a) == Rest(n, b)
    ensures a == b
  {
    var x := if a.attempt == 0 then "" else ":" + Decimal(a.attempt + 1);
    var y := if b.attempt == 0 then "" else ":" + Decimal(b.attempt + 1);
    SamePrefix(n.tx(a.purchase), x, n.tx(b.purchase), y);
    if a.attempt > 0 && b.attempt > 0 {
      SamePrefix(":", Decimal(a.attempt + 1), ":", Decimal(b.attempt + 1));
      DecimalTells(a.attempt + 1, b.attempt + 1);
    }
  }

  lemma {:induction false} PayoutsTell(n: Names, a: Key, b: Key)
    requires Proper(n) && IsPayout(a) && IsPayout(b) && Payer(a) == Payer(b) && SweepTail(n, a) == SweepTail(n, b)
    ensures a == b
  {
    if a.SweepSlice? && b.SweepSlice? {
      var x, y := Decimal(a.index) + ":" + n.minute(a.minute), Decimal(b.index) + ":" + n.minute(b.minute);
      assert SweepTail(n, a) == n.tx(a.purchase) + (":" + x) && SweepTail(n, b) == n.tx(b.purchase) + (":" + y);
      SamePrefix(n.tx(a.purchase), ":" + x, n.tx(b.purchase), ":" + y);
      SamePrefix(":", x, ":", y);
      SameSuffix(Decimal(a.index) + ":", n.minute(a.minute), Decimal(b.index) + ":", n.minute(b.minute));
      SameSuffix(Decimal(a.index), ":", Decimal(b.index), ":");
      DecimalTells(a.index, b.index);
    }
  }

  lemma {:induction false} LastOfTail(n: Names, k: Key)
    requires Proper(n) && IsSweep(k)
    ensures |SweepTail(n, k)| > 0
    ensures k.PayoutFee? <==> SweepTail(n, k)[|SweepTail(n, k)| - 1] == 'e'
  {
    if k.Sweep? || k.SweepSlice? {
      assert SweepTail(n, k)[|SweepTail(n, k)| - 1] == n.minute(k.minute)[MINUTE - 1];
    }
  }

  lemma {:induction false} TailsTell(n: Names, a: Key, b: Key)
    requires Proper(n) && IsSweep(a) && IsSweep(b) && Payer(a) == Payer(b) && SweepTail(n, a) == SweepTail(n, b)
    ensures a == b
  {
    LastOfTail(n, a);
    LastOfTail(n, b);
    if a.PayoutFee? {
      SameSuffix(SweepTail(n, a.payout), ":fee", SweepTail(n, b.payout), ":fee");
      PayoutsTell(n, a.payout, b.payout);
    } else {
      PayoutsTell(n, a, b);
    }
  }

  lemma {:induction false} SweepsTell(n: Names, a: Key, b: Key)
    requires Proper(n) && IsSweep(a) && IsSweep(b) && Head(n, a) == Head(n, b) && Rest(n, a) == Rest(n, b)
    ensures a == b
  {
    var v, w := Payer(a), Payer(b);
    assert |"rail-settlement"| != |"auto-withdraw"|;
    var x, y := n.wallet(v) + (":" + SweepTail(n, a)), n.wallet(w) + (":" + SweepTail(n, b));
    if n.rail(v).Some? {
      SameHead(n.rail(v).value, x, n.rail(w).value, y);
    }
    SamePrefix(n.wallet(v), ":" + SweepTail(n, a), n.wallet(w), ":" + SweepTail(n, b));
    SamePrefix(":", SweepTail(n, a), ":", SweepTail(n, b));
    TailsTell(n, a, b);
  }

  lemma {:induction false} SystemKeysTell(n: Names, a: Key, b: Key)
    requires Proper(n) && Written(a) && Written(b) && !a.Client? && !b.Client? && Render(n, a) == Render(n, b)
    ensures a == b
  {
    hide Render, Decimal, SweepTail, Proper;
    HeadTells(n, a);
    HeadTells(n, b);
    SplitsAtColon(n, a);
    SplitsAtColon(n, b);
    SameHead(Head(n, a), Rest(n, a), Head(n, b), Rest(n, b));
    if IsSweep(a) {
      SweepsTell(n, a, b);
    } else if a.RepaymentSlice? {
      SlicesTell(n, a, b);
    } else if a.SupportTopUp? {
      TopUpsTell(n, a, b);
    } else {
      IdsTell(n, a, b);
    }
  }

  lemma {:induction false} IdsTell(n: Names, a: Key, b: Key)
    requires Proper(n) && Kind(a) == Kind(b) && 0 < Kind(a) < 10 && Kind(a) != 6 && Rest(n, a) == Rest(n, b)
    ensures a == b
  {
  }

  /** Two keys read alike exactly when they are equal, or one is a client's and spells the other out. */
  lemma {:induction false} ReadAlikeExactly(n: Names, a: Key, b: Key)
    requires Proper(n) && Written(a) && Written(b)
    ensures Render(n, a) == Render(n, b)
       <==> a == b || (a.Client? && a.key == Render(n, b)) || (b.Client? && b.key == Render(n, a))
  {
    hide Proper;
    if !a.Client? && !b.Client? && Render(n, a) == Render(n, b) {
      SystemKeysTell(n, a, b);
    }
  }

  /** A client can spell out another key only with one of the reserved heads. */
  lemma {:induction false} PlainKeysTell(n: Names, a: Key, b: Key)
    requires Proper(n) && Written(a) && Written(b)
    requires (a.Client? ==> !Reserved(a.key)) && (b.Client? ==> !Reserved(b.key))
    ensures Render(n, a) == Render(n, b) <==> a == b
  {
    hide Proper;
    ReadAlikeExactly(n, a, b);
    if !a.Client? {
      SystemIsReserved(n, a);
    }
    if !b.Client? {
      SystemIsReserved(n, b);
    }
  }

  lemma {:induction false} SystemIsReserved(n: Names, k: Key)
    requires !k.Client? && Written(k)
    ensures Reserved(Render(n, k))
  {
    hide Render, Rest, Head;
    HeadTells(n, k);
    SplitsAtColon(n, k);
    var i :| 0 <= i < |RESERVED| && RESERVED[i] == Head(n, k);
    assert Render(n, k) == (Head(n, k) + ":") + Rest(n, k);
    assert RESERVED[i] + ":" <= Render(n, k);
  }

  // ---- The slices of write-offs ----

  const UNBLOCK := "-unblock"

  /** Slices of two write-offs share a name exactly when they are one slice of one key, or the fee of a key
      that ends in `-unblock` and the unblock fee of the key without that ending. */
  lemma {:induction false} SlicesReadAlikeExactly(a: string, x: Slice, b: string, y: Slice)
    ensures a + Suffix(x) == b + Suffix(y)
       <==> || (a == b && x == y)
            || (x == UnblockSlice && y == FeeSlice && b == a + UNBLOCK)
            || (x == FeeSlice && y == UnblockSlice && a == b + UNBLOCK)
  {
    assert UNBLOCK + Suffix(FeeSlice) == Suffix(UnblockSlice);
    assert (a + UNBLOCK) + Suffix(FeeSlice) == a + Suffix(UnblockSlice);
    assert (b + UNBLOCK) + Suffix(FeeSlice) == b + Suffix(UnblockSlice);
    if a + Suffix(x) == b + Suffix(y) {
      if x == y {
        SameSuffix(a, Suffix(x), b, Suffix(y));
      } else if x == UnblockSlice && y == FeeSlice {
        SameSuffix(a + UNBLOCK, Suffix(FeeSlice), b, Suffix(FeeSlice));
      } else if x == FeeSlice && y == UnblockSlice {
        SameSuffix(a, Suffix(FeeSlice), b + UNBLOCK, Suffix(FeeSlice));
      } else {
        LastLetter(a, x);
        LastLetter(b, y);
      }
    }
  }

  lemma {:induction false} LastLetter(text: string, slice: Slice)
    ensures |text + Suffix(slice)| > 0
    ensures (text + Suffix(slice))[|text + Suffix(slice)| - 1] == if slice == PenaltySlice then 'y' else 'e'
  {
  }
}
