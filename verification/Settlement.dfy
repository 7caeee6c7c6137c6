/** Merchant settlement: how a purchase is cut into payout slices, and what a payout costs. */
module Settlement {
  import opened Common
  import opened Sums
  import opened Ledger

  /** Percentages are in thousandths of a percent: 100% is 100000. */
  const WHOLE := 100_000
  const TOLERANCE := 10

  /** A split as the merchant sends it: a value with three decimals, in thousandths. */
  datatype SplitDto = PercentDto(value: int) | FixedDto(value: int)

  datatype SplitRow = PercentRow(milli: int) | FixedRow(amount: int)

  function ValueOf(): SplitDto -> int {
    (d: SplitDto) => d.value
  }

  function MilliOf(): SplitRow -> int {
    (r: SplitRow) => if r.PercentRow? then r.milli else 0
  }

  function Identity(): int -> int {
    (x: int) => x
  }

  /** Math.round of a number held in thousandths. */
  function Rounded(thousandths: int): int {
    (thousandths + 500) / 1000
  }

  predicate InRange(d: SplitDto) {
    d.value >= 1
  }

  predicate ValidChargeOverrides(items: seq<SplitDto>, amount: int) {
    && |items| > 0
    && (forall i :: 0 <= i < |items| ==> InRange(items[i]) && items[i].PercentDto? == items[0].PercentDto?)
    && var sum := Sum(items, ValueOf());
       if items[0].PercentDto? then Abs(sum - WHOLE) <= TOLERANCE else Rounded(sum) == amount
  }

  predicate ValidWalletDefaults(items: seq<int>) {
    && |items| > 0 && (forall i :: 0 <= i < |items| ==> 1 <= items[i] <= WHOLE)
    && Abs(Sum(items, Identity()) - WHOLE) <= TOLERANCE
  }

  function StoredRow(d: SplitDto): SplitRow {
    match d
    case PercentDto(value) => PercentRow(value)
    case FixedDto(value) => FixedRow(Rounded(value))
  }

  function StoredRows(items: seq<SplitDto>): (rows: seq<SplitRow>)
    ensures |rows| == |items|
  {
    seq(|items|, i requires 0 <= i < |items| => StoredRow(items[i]))
  }

  function Share(total: int, row: SplitRow): int {
    if row.PercentRow? then total * row.milli / WHOLE else 0
  }

  function ShareOf(total: int): SplitRow -> int {
    (r: SplitRow) => Share(total, r)
  }

  function FixedAmount(r: SplitRow): int {
    if r.FixedRow? then r.amount else 0
  }

  /** Percent rows: every slice but the last is floored, and the last takes what is left. */
  function Amounts(rows: seq<SplitRow>, total: int): (amounts: seq<int>)
    requires |rows| > 0
    ensures |amounts| == |rows|
  {
    var n := |rows|;
    if rows[0].FixedRow? then seq(n, i requires 0 <= i < n => FixedAmount(rows[i]))
    else seq(n - 1, i requires 0 <= i < n - 1 => Share(total, rows[i]))
         + [total - Sum(rows[..n - 1], ShareOf(total))]
  }

  method ComputeAmounts(rows: seq<SplitRow>, total: int) returns (amounts: seq<int>)
    requires |rows| > 0
    ensures amounts == Amounts(rows, total)
  {
    if rows[0].FixedRow? {
      return seq(|rows|, i requires 0 <= i < |rows| => FixedAmount(rows[i]));
    }
    amounts := [];
    var handedOut := 0;
    for i := 0 to |rows| - 1
      invariant |amounts| == i && amounts == Amounts(rows, total)[..i]
      invariant handedOut == Sum(rows[..i], ShareOf(total))
    {
      var amount := Share(total, rows[i]);
      assert rows[..i + 1][..i] == rows[..i];
      amounts := amounts + [amount];
      handedOut := handedOut + amount;
    }
    amounts := amounts + [total - handedOut];
  }

  predicate PercentRows(rows: seq<SplitRow>) {
    |rows| > 0 && forall i :: 0 <= i < |rows| ==> rows[i].PercentRow? && rows[i].milli >= 0
  }

  lemma {:induction false} SharesBounded(rows: seq<SplitRow>, total: nat)
    requires forall i :: 0 <= i < |rows| ==> rows[i].PercentRow? && rows[i].milli >= 0
    ensures WHOLE * Sum(rows, ShareOf(total)) <= total * Sum(rows, MilliOf())
    ensures total * Sum(rows, MilliOf()) <= WHOLE * Sum(rows, ShareOf(total)) + (WHOLE - 1) * |rows|
  {
    if |rows| > 0 {
      var init, last := rows[..|rows| - 1], rows[|rows| - 1];
      SharesBounded(init, total);
      assert total * Sum(rows, MilliOf()) == total * Sum(init, MilliOf()) + total * last.milli;
      ShareBounds(total, last.milli);
    }
  }

  lemma {:induction false} ShareBounds(total: nat, milli: nat)
    ensures WHOLE * (total * milli / WHOLE) <= total * milli <= WHOLE * (total * milli / WHOLE) + (WHOLE - 1)
  {
  }

  /** Whatever the percentages, the slices add up to exactly the purchase. */
  lemma {:induction false} PercentSlicesAddUp(rows: seq<SplitRow>, total: int)
    requires PercentRows(rows)
    ensures Sum(Amounts(rows, total), Identity()) == total
  {
    var n := |rows|;
    var floored := seq(n - 1, i requires 0 <= i < n - 1 => Share(total, rows[i]));
    SumSame(rows[..n - 1], floored, ShareOf(total), Identity());
    SumSnoc(floored, total - Sum(rows[..n - 1], ShareOf(total)), Identity());
  }

  /** The percentages of every row but the last. */
  function Head(rows: seq<SplitRow>): int
    requires |rows| > 0
  {
    Sum(rows[..|rows| - 1], MilliOf())
  }

  predicate SlicesNonNegative(rows: seq<SplitRow>, total: int)
    requires |rows| > 0
  {
    forall i :: 0 <= i < |rows| ==> Amounts(rows, total)[i] >= 0
  }

  /** No purchase is ever cut into a negative slice exactly when the rows before the last ask for
      at most the whole; the accepted tolerance does not guarantee that. */
  lemma {:induction false} SlicesNonNegativeExactly(rows: seq<SplitRow>)
    requires PercentRows(rows)
    ensures (forall total: nat :: SlicesNonNegative(rows, total)) <==> Head(rows) <= WHOLE
  {
    var n := |rows|;
    if Head(rows) <= WHOLE {
      forall total: nat ensures SlicesNonNegative(rows, total) {
        var left: nat := WHOLE - Head(rows);
        LastSliceBounds(rows, total, left);
        HeadSlicesNonNegative(rows, total);
        Scale(total, 0, left);
      }
    } else {
      var total: nat := WHOLE;
      SumSame(rows[..n - 1], rows[..n - 1], ShareOf(total), MilliOf());
      assert Amounts(rows, total)[n - 1] < 0;
      assert !SlicesNonNegative(rows, total);
    }
  }

  /** What the percentages before the last take of this amount, each floored, is at most the amount; fixed
      amounts are never negative. */
  predicate HeadWithin(items: seq<SplitDto>, amount: int) {
    |items| > 0 && items[0].PercentDto? ==> Sum(StoredRows(items)[..|items| - 1], ShareOf(amount)) <= amount
  }

  /** An accepted charge split cuts its charge into no negative slice if and only if the floored shares
      before the last are at most the charge. */
  lemma {:induction false} AcceptedSplitGoodExactly(items: seq<SplitDto>, amount: nat)
    requires ValidChargeOverrides(items, amount)
    ensures |items| > 0 && (SlicesNonNegative(StoredRows(items), amount) <==> HeadWithin(items, amount))
  {
    var rows := StoredRows(items);
    if items[0].PercentDto? {
      HeadSlicesNonNegative(rows, amount);
      assert Amounts(rows, amount)[|rows| - 1] == amount - Sum(rows[..|rows| - 1], ShareOf(amount));
    }
  }

  /** The same split can be harmless for one charge and not for another. */
  lemma {:induction false} OvershootingIsHarmlessForLess()
    ensures ValidChargeOverrides(OVERSHOOTING, 1000) && HeadWithin(OVERSHOOTING, 1000)
        && !HeadWithin(OVERSHOOTING, 1_000_000)
  {
    AcceptedSplitCanGoNegative();
    var rows := StoredRows(OVERSHOOTING);
    assert rows[..2] == [rows[0], rows[1]];
    SumPair(rows[0], rows[1], ShareOf(1000));
    SumPair(rows[0], rows[1], ShareOf(1_000_000));
  }

  /** An accepted FIXED split adds up to its charge if and only if its rounded amounts do: the validator
      rounds only their sum. */
  lemma {:induction false} FixedSplitAddsUpExactly(items: seq<SplitDto>, amount: nat)
    requires ValidChargeOverrides(items, amount) && items[0].FixedDto?
    ensures Sum(Amounts(StoredRows(items), amount), Identity()) == amount <==> Sum(items, RoundedValue()) == amount
    ensures Abs(2 * Sum(items, RoundedValue()) - 2 * amount) <= |items| + 1
  {
    SumSame(Amounts(StoredRows(items), amount), items, Identity(), RoundedValue());
    RoundingsAddUp(items);
  }

  function RoundedValue(): SplitDto -> int {
    (d: SplitDto) => Rounded(d.value)
  }

  lemma {:induction false} RoundingsAddUp(items: seq<SplitDto>)
    ensures Abs(2 * 1000 * Sum(items, RoundedValue()) - 2 * Sum(items, ValueOf())) <= 1000 * |items|
  {
    if |items| > 0 {
      RoundingsAddUp(items[..|items| - 1]);
    }
  }

  /** Two halves are rounded up to a whole each: a shop is paid 2 for a purchase of 1. */
  lemma {:induction false} RoundedHalvesOverpay()
    ensures var items := [FixedDto(500), FixedDto(500)];
            ValidChargeOverrides(items, 1) && Amounts(StoredRows(items), 1) == [1, 1]
  {
    SumPair(FixedDto(500), FixedDto(500), ValueOf());
  }

  function DefaultRows(items: seq<int>): (rows: seq<SplitRow>)
    ensures |rows| == |items|
  {
    seq(|items|, i requires 0 <= i < |items| => PercentRow(items[i]))
  }

  /** The percentages before the last are at most the whole. */
  predicate DefaultsWithinWhole(items: seq<int>) {
    |items| > 0 ==> Sum(items[..|items| - 1], Identity()) <= WHOLE
  }

  /** A wallet's accepted defaults, which may have to cut purchases of any amount, are good for all of them
      if and only if the percentages before the last are at most the whole. */
  lemma {:induction false} AcceptedDefaultsGoodExactly(items: seq<int>)
    requires ValidWalletDefaults(items)
    ensures (forall total: nat :: SlicesNonNegative(DefaultRows(items), total)) <==> DefaultsWithinWhole(items)
  {
    var rows := DefaultRows(items);
    SumSame(items[..|items| - 1], rows[..|items| - 1], Identity(), MilliOf());
    SlicesNonNegativeExactly(rows);
  }

  /** The last slice against the percentage the other rows leave for it. */
  lemma {:induction false} LastSliceBounds(rows: seq<SplitRow>, total: nat, left: int)
    requires PercentRows(rows) && left == WHOLE - Head(rows)
    ensures var last := Amounts(rows, total)[|rows| - 1];
            total * left <= WHOLE * last < total * left + WHOLE * |rows|
  {
    var init := rows[..|rows| - 1];
    SharesBounded(init, total);
    DistributeWhole(total, left, Head(rows));
  }

  lemma {:induction false} DistributeWhole(total: int, left: int, head: int)
    requires left == WHOLE - head
    ensures total * left == WHOLE * total - total * head
  {
  }

  lemma {:induction false} Scale(k: nat, x: int, y: int)
    requires x <= y
    ensures k * x <= k * y
  {
  }

  lemma {:induction false} HeadSlicesNonNegative(rows: seq<SplitRow>, total: nat)
    requires PercentRows(rows)
    ensures forall i :: 0 <= i < |rows| - 1 ==> Amounts(rows, total)[i] >= 0
  {
    forall i | 0 <= i < |rows| - 1 ensures Amounts(rows, total)[i] >= 0 {
      assert total * rows[i].milli >= 0;
    }
  }

  /** Percentages that add up to exactly 100%: no slice is negative, and the last exceeds its exact
      share by less than one minor unit per row. */
  lemma {:induction false} LastSliceNearItsShare(rows: seq<SplitRow>, total: nat)
    requires PercentRows(rows) && Sum(rows, MilliOf()) == WHOLE
    ensures SlicesNonNegative(rows, total)
    ensures var last := Amounts(rows, total)[|rows| - 1];
            total * rows[|rows| - 1].milli <= WHOLE * last < total * rows[|rows| - 1].milli + WHOLE * |rows|
  {
    LastSliceBounds(rows, total, rows[|rows| - 1].milli);
    HeadSlicesNonNegative(rows, total);
    Scale(total, 0, rows[|rows| - 1].milli);
  }

  /** Percentages within the accepted tolerance: the last slice falls below zero by at most one
      ten-thousandth of the purchase. */
  lemma {:induction false} LastSliceWithinTolerance(rows: seq<SplitRow>, total: nat)
    requires PercentRows(rows) && Abs(Sum(rows, MilliOf()) - WHOLE) <= TOLERANCE
    ensures 10_000 * Amounts(rows, total)[|rows| - 1] + total >= 0
    ensures forall i :: 0 <= i < |rows| - 1 ==> Amounts(rows, total)[i] >= 0
  {
    LastSliceBounds(rows, total, WHOLE - Head(rows));
    HeadSlicesNonNegative(rows, total);
    Scale(total, -TOLERANCE, WHOLE - Head(rows));
  }

  const OVERSHOOTING := [PercentDto(100_000), PercentDto(5), PercentDto(1)]

  /** The validator accepts 100% + 0.005% + 0.001%, and a purchase of a million is then cut into
      slices of which the last is negative. */
  lemma {:induction false} AcceptedSplitCanGoNegative()
    ensures ValidChargeOverrides(OVERSHOOTING, 1_000_000)
    ensures Amounts(StoredRows(OVERSHOOTING), 1_000_000) == [1_000_000, 50, -50]
  {
    var items := OVERSHOOTING;
    assert items[..2][..1] == [PercentDto(100_000)] && items[..2][..1][..0] == [];
    assert Sum(items[..2][..1], ValueOf()) == Sum(items[..2][..1][..0], ValueOf()) + 100_000;
    assert Sum(items[..2], ValueOf()) == Sum(items[..2][..1], ValueOf()) + 5;
    assert Sum(items, ValueOf()) == Sum(items[..2], ValueOf()) + 1;
    var rows := StoredRows(items);
    SumPair(rows[0], rows[1], ShareOf(1_000_000));
    assert rows[..2] == [rows[0], rows[1]];
  }

  // ---- Payout fees ----

  datatype Method = Method(rail: nat, feeMilli: nat, fixedFee: nat, feeRepository: Option<WalletId>)

  function FindMethod(methods: seq<Method>, rail: Option<nat>): (r: Option<Method>)
    ensures r.Some? ==> r.value in methods && rail == Some(r.value.rail)
    ensures r.None? ==> forall m :: m in methods ==> rail != Some(m.rail)
  {
    if rail.None? || |methods| == 0 then None
    else if methods[0].rail == rail.value then Some(methods[0])
    else FindMethod(methods[1..], rail)
  }

  predicate HasAnyFee(m: Method) {
    m.feeMilli > 0 || m.fixedFee > 0
  }

  function WithdrawalFee(m: Option<Method>, amount: int): (fee: int)
    ensures amount >= 0 ==> 0 <= fee <= amount
    ensures amount <= 0 ==> fee == 0
  {
    if m.None? || amount <= 0 then 0
    else
      var fee := amount * m.value.feeMilli / WHOLE + m.value.fixedFee;
      if fee <= 0 then 0 else if fee > amount then amount else fee
  }

  /** At rates up to 100% a larger payout never nets the merchant less. */
  lemma {:induction false} NetNeverFalls(m: Option<Method>, smaller: nat, larger: nat)
    requires smaller <= larger
    requires m.Some? ==> m.value.feeMilli <= WHOLE
    ensures smaller - WithdrawalFee(m, smaller) <= larger - WithdrawalFee(m, larger)
  {
    if m.Some? {
      var rate := m.value.feeMilli;
      assert larger * rate == smaller * rate + (larger - smaller) * rate;
      assert (larger - smaller) * rate <= (larger - smaller) * WHOLE;
      assert larger * rate <= smaller * rate + (larger - smaller) * WHOLE;
      FloorOfShift(smaller * rate, larger - smaller);
      FloorMonotone(larger * rate, smaller * rate + (larger - smaller) * WHOLE);
    }
  }

  lemma {:induction false} FloorOfShift(x: nat, k: nat)
    ensures (x + k * WHOLE) / WHOLE == x / WHOLE + k
  {
  }

  lemma {:induction false} FloorMonotone(x: nat, y: nat)
    requires x <= y
    ensures x / WHOLE <= y / WHOLE
  {
  }
}
