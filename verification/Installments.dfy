/** Repayment plans: the calendar they are laid out on, their rows, and the daily penalty. */
module Installments {
  import opened Common
  import opened Sums
  import opened Ledger

  // ---- Calendar ----

  /** `month` counts months from year 0, so month arithmetic never needs to carry. */
  datatype Date = Date(month: nat, day: nat)

  type DayOfMonth = d: nat | 1 <= d <= 31 witness 1

  predicate LeapYear(y: nat) {
    y % 4 == 0 && (y % 100 != 0 || y % 400 == 0)
  }

  function DaysInMonth(month: nat): (n: nat)
    ensures 28 <= n <= 31
  {
    var m := month % 12;
    if m == 1 then if LeapYear(month / 12) then 29 else 28
    else if m == 3 || m == 5 || m == 8 || m == 10 then 30
    else 31
  }

  predicate OnCalendar(d: Date) {
    1 <= d.day <= DaysInMonth(d.month)
  }

  predicate Before(a: Date, b: Date) {
    a.month < b.month || (a.month == b.month && a.day < b.day)
  }

  function DaysBefore(month: nat): nat {
    if month == 0 then 0 else DaysBefore(month - 1) + DaysInMonth(month - 1)
  }

  /** Whole days, as the subtraction of two UTC midnights counts them. */
  function DayNumber(d: Date): nat {
    DaysBefore(d.month) + d.day
  }

  lemma {:induction false} MonthsApart(m: nat, n: nat)
    requires m < n
    ensures DaysBefore(m) + DaysInMonth(m) <= DaysBefore(n)
  {
    if m < n - 1 {
      MonthsApart(m, n - 1);
    }
  }

  /** Comparing dates and comparing their day numbers is the same. */
  lemma {:induction false} DayNumberFollowsCalendar(a: Date, b: Date)
    requires OnCalendar(a) && OnCalendar(b)
    ensures Before(a, b) <==> DayNumber(a) < DayNumber(b)
  {
    if a.month < b.month {
      MonthsApart(a.month, b.month);
    } else if b.month < a.month {
      MonthsApart(b.month, a.month);
    }
  }

  function DateForDayOfMonth(month: nat, day: DayOfMonth): (d: Date)
    ensures OnCalendar(d)
  {
    Date(month, if day < DaysInMonth(month) then day else DaysInMonth(month))
  }

  // ---- The schedule ----

  /** The installment terms of a credit wallet type; percentages are in thousandths of a percent. */
  datatype Terms = Terms(
    installmentCount: Option<nat>,
    installmentDate: Option<DayOfMonth>,
    paymentDeadlineDate: Option<DayOfMonth>,
    feeMilli: nat,
    penaltyMilli: nat,
    unblockFee: nat,
    overdueDaysBeforeBlock: Option<int>,
    feeRepository: Option<WalletId>,
    penaltyRepository: Option<WalletId>,
    unblockRepository: Option<WalletId>)

  datatype ScheduledInstallment = ScheduledInstallment(
    sequenceNumber: nat, principal: int, fee: int, amount: int, due: Date, deadline: Date)

  function PercentOf(amount: int, milli: nat): int {
    amount * milli / 100_000
  }

  function InstallmentPrincipal(total: nat, count: nat, sequenceNumber: nat): nat
    requires count > 0
  {
    total / count + if sequenceNumber == count then total % count else 0
  }

  function DeadlineDate(due: Date, deadlineDay: DayOfMonth): Date {
    var candidate := DateForDayOfMonth(due.month, deadlineDay);
    if Before(due, candidate) then candidate else DateForDayOfMonth(due.month + 1, deadlineDay)
  }

  function AnchorDay(terms: Terms, purchased: Date): DayOfMonth
    requires OnCalendar(purchased)
  {
    if terms.installmentDate.Some? then terms.installmentDate.value else purchased.day
  }

  function FirstMonthOffset(terms: Terms, purchased: Date): nat
    requires OnCalendar(purchased)
  {
    if terms.installmentDate.Some? && Before(purchased, DateForDayOfMonth(purchased.month, terms.installmentDate.value))
    then 0 else 1
  }

  function ScheduleRow(amount: nat, terms: Terms, purchased: Date, sequenceNumber: nat): ScheduledInstallment
    requires OnCalendar(purchased) && sequenceNumber >= 1
    requires terms.installmentCount.Some? && terms.installmentCount.value >= 1
  {
    var principal := InstallmentPrincipal(amount, terms.installmentCount.value, sequenceNumber);
    var fee := PercentOf(principal, terms.feeMilli);
    var due := DateForDayOfMonth(purchased.month + FirstMonthOffset(terms, purchased) + (sequenceNumber - 1),
                                 AnchorDay(terms, purchased));
    var deadline := if terms.paymentDeadlineDate.Some? then DeadlineDate(due, terms.paymentDeadlineDate.value) else due;
    ScheduledInstallment(sequenceNumber, principal, fee, principal + fee, due, deadline)
  }

  predicate HasSchedule(amount: int, terms: Terms) {
    terms.installmentCount.Some? && terms.installmentCount.value >= 1 && amount > 0
  }

  function Schedule(amount: int, terms: Terms, purchased: Date): seq<ScheduledInstallment>
    requires OnCalendar(purchased)
  {
    if !HasSchedule(amount, terms) then []
    else seq(terms.installmentCount.value, i requires 0 <= i => ScheduleRow(amount, terms, purchased, i + 1))
  }

  /** Lays the plan out row by row, as the service does. */
  method BuildSchedule(amount: int, terms: Terms, purchased: Date) returns (schedule: seq<ScheduledInstallment>)
    requires OnCalendar(purchased)
    ensures schedule == Schedule(amount, terms, purchased)
  {
    schedule := [];
    if terms.installmentCount.None? || terms.installmentCount.value < 1 || amount <= 0 {
      return;
    }
    var count := terms.installmentCount.value;
    var anchorDay := AnchorDay(terms, purchased);
    var firstMonthOffset := 1;
    if terms.installmentDate.Some? {
      var sameMonth := DateForDayOfMonth(purchased.month, anchorDay);
      firstMonthOffset := if Before(purchased, sameMonth) then 0 else 1;
    }
    var sequenceNumber := 1;
    while sequenceNumber <= count
      invariant 1 <= sequenceNumber <= count + 1
      invariant schedule == Schedule(amount, terms, purchased)[..sequenceNumber - 1]
    {
      var principal := InstallmentPrincipal(amount, count, sequenceNumber);
      var fee := PercentOf(principal, terms.feeMilli);
      var due := DateForDayOfMonth(purchased.month + firstMonthOffset + (sequenceNumber - 1), anchorDay);
      var deadline := due;
      if terms.paymentDeadlineDate.Some? {
        deadline := DeadlineDate(due, terms.paymentDeadlineDate.value);
      }
      schedule := schedule + [ScheduledInstallment(sequenceNumber, principal, fee, principal + fee, due, deadline)];
      sequenceNumber := sequenceNumber + 1;
    }
  }

  function PrincipalOfRow(): ScheduledInstallment -> int {
    (r: ScheduledInstallment) => r.principal
  }

  function FeeOfRow(): ScheduledInstallment -> int {
    (r: ScheduledInstallment) => r.fee
  }

  lemma {:induction false} PrefixPrincipal(amount: nat, terms: Terms, purchased: Date, k: nat)
    requires OnCalendar(purchased) && HasSchedule(amount, terms) && k < terms.installmentCount.value
    ensures Sum(Schedule(amount, terms, purchased)[..k], PrincipalOfRow())
        == k * (amount / terms.installmentCount.value)
  {
    var s := Schedule(amount, terms, purchased);
    if k > 0 {
      PrefixPrincipal(amount, terms, purchased, k - 1);
      assert s[..k] == s[..k - 1] + [s[k - 1]];
      SumSnoc(s[..k - 1], s[k - 1], PrincipalOfRow());
      NextMultiple(k, amount / terms.installmentCount.value);
    }
  }

  lemma {:induction false} NextMultiple(k: nat, share: nat)
    requires k > 0
    ensures k * share == (k - 1) * share + share
  {
  }

  lemma {:induction false} SharesAddUp(amount: nat, count: nat)
    requires count > 0
    ensures (count - 1) * (amount / count) + InstallmentPrincipal(amount, count, count) == amount
  {
    var share := amount / count;
    assert (count - 1) * share == count * share - share;
  }

  /** The principals of a plan add up to exactly the amount drawn. */
  lemma {:induction false} PrincipalsAddUp(amount: nat, terms: Terms, purchased: Date)
    requires OnCalendar(purchased) && HasSchedule(amount, terms)
    ensures Sum(Schedule(amount, terms, purchased), PrincipalOfRow()) == amount
  {
    var s := Schedule(amount, terms, purchased);
    var count := terms.installmentCount.value;
    PrefixPrincipal(amount, terms, purchased, count - 1);
    assert s == s[..count - 1] + [s[count - 1]];
    SumSnoc(s[..count - 1], s[count - 1], PrincipalOfRow());
    SharesAddUp(amount, count);
  }

  lemma {:induction false} FloorBounds(x: nat, milli: nat)
    ensures 100_000 * PercentOf(x, milli) <= x * milli < 100_000 * PercentOf(x, milli) + 100_000
  {
  }

  lemma {:induction false} FeesBelowShare(rows: seq<ScheduledInstallment>, milli: nat)
    requires forall i :: 0 <= i < |rows| ==>
        rows[i].principal >= 0 && rows[i].fee == PercentOf(rows[i].principal, milli)
    ensures Sum(rows, PrincipalOfRow()) >= 0
    ensures 100_000 * Sum(rows, FeeOfRow()) <= Sum(rows, PrincipalOfRow()) * milli
    ensures |rows| > 0 ==> Sum(rows, PrincipalOfRow()) * milli < 100_000 * (Sum(rows, FeeOfRow()) + |rows|)
  {
    if |rows| > 0 {
      var init, last := rows[..|rows| - 1], rows[|rows| - 1];
      FeesBelowShare(init, milli);
      FloorBounds(last.principal, milli);
      assert Sum(rows, PrincipalOfRow()) * milli == Sum(init, PrincipalOfRow()) * milli + last.principal * milli;
    }
  }

  /** Charging the fee installment by installment costs at most count - 1 less than charging it once. */
  lemma {:induction false} FeesFallShortByLessThanCount(amount: nat, terms: Terms, purchased: Date)
    requires OnCalendar(purchased) && HasSchedule(amount, terms)
    ensures var fees := Sum(Schedule(amount, terms, purchased), FeeOfRow());
            0 <= PercentOf(amount, terms.feeMilli) - fees <= terms.installmentCount.value - 1
  {
    var s := Schedule(amount, terms, purchased);
    PrincipalsAddUp(amount, terms, purchased);
    FeesBelowShare(s, terms.feeMilli);
    FloorBounds(amount, terms.feeMilli);
  }

  /** Due dates: the first falls after the purchase, and each next one in the following month. */
  lemma {:induction false} DueDatesAdvanceMonthly(amount: nat, terms: Terms, purchased: Date, i: nat)
    requires OnCalendar(purchased) && HasSchedule(amount, terms)
    requires i < |Schedule(amount, terms, purchased)|
    ensures var s := Schedule(amount, terms, purchased);
            && |s| == terms.installmentCount.value && s[i].sequenceNumber == i + 1
            && OnCalendar(s[i].due) && Before(purchased, s[i].due)
            && (i + 1 < |s| ==> s[i + 1].due.month == s[i].due.month + 1)
            && (i > 0 ==> Before(s[i - 1].due, s[i].due))
            && s[i].due.day == if AnchorDay(terms, purchased) < DaysInMonth(s[i].due.month)
                               then AnchorDay(terms, purchased) else DaysInMonth(s[i].due.month)
  {
  }

  lemma {:induction false} DeadlineAfterDue(due: Date, day: DayOfMonth)
    requires OnCalendar(due)
    ensures OnCalendar(DeadlineDate(due, day))
    ensures Before(due, DeadlineDate(due, day)) && DeadlineDate(due, day).month <= due.month + 1
  {
  }

  /** A deadline never comes before an earlier installment's deadline, month-end clamping included:
      the later due date may sit in a shorter month. */
  lemma {:induction false} DeadlinesNeverDecrease(amount: nat, terms: Terms, purchased: Date, i: nat, k: nat)
    requires OnCalendar(purchased) && HasSchedule(amount, terms)
    requires i <= k < |Schedule(amount, terms, purchased)|
    ensures var s := Schedule(amount, terms, purchased);
            && DayNumber(s[i].deadline) <= DayNumber(s[k].deadline)
            && (terms.paymentDeadlineDate.Some? ==> DayNumber(s[i].due) < DayNumber(s[i].deadline))
            && (terms.paymentDeadlineDate.None? ==> s[i].deadline == s[i].due)
            && DayNumber(purchased) < DayNumber(s[i].due)
  {
    var s := Schedule(amount, terms, purchased);
    DayNumberFollowsCalendar(purchased, s[i].due);
    if terms.paymentDeadlineDate.Some? {
      DeadlineAfterDue(s[i].due, terms.paymentDeadlineDate.value);
      DeadlineAfterDue(s[k].due, terms.paymentDeadlineDate.value);
      DayNumberFollowsCalendar(s[i].due, s[i].deadline);
    }
    DayNumberFollowsCalendar(s[k].deadline, s[i].deadline);
  }

  // ---- Saved rows and the daily penalty ----

  datatype InstallmentStatus = Pending | Overdue | Paid | Canceled

  datatype Installment = Installment(
    wallet: WalletId, purchase: TxId, sequenceNumber: nat, principal: int, fee: int, amount: int,
    due: int, deadline: int, dueChecked: bool, penaltyApplied: bool, penaltyDays: int,
    status: InstallmentStatus)

  predicate Unpaid(i: Installment) {
    i.status == Pending || i.status == Overdue
  }

  /** What the overdue sweep does to one row: top it up by the days not charged yet. */
  function Accrue(i: Installment, penaltyMilli: nat, today: int): Installment {
    if !Unpaid(i) || today <= i.deadline then i
    else
      var daysOverdue := today - i.deadline;
      var owedDays := daysOverdue - i.penaltyDays;
      if owedDays > 0 then
        i.(amount := i.amount + PercentOf(i.principal, penaltyMilli) * owedDays,
           penaltyDays := daysOverdue, penaltyApplied := true, status := Overdue)
      else if i.status != Overdue then i.(penaltyApplied := true, status := Overdue)
      else i
  }

  /** The row's amount is its fixed principal and fee plus the days already charged. */
  predicate Accrued(i: Installment, penaltyMilli: nat) {
    && i.penaltyDays >= 0
    && i.amount == i.principal + i.fee + PercentOf(i.principal, penaltyMilli) * i.penaltyDays
    && (i.status == Pending ==> i.penaltyDays == 0)
  }

  function AccrueAll(i: Installment, penaltyMilli: nat, days: seq<int>): Installment {
    if |days| == 0 then i
    else Accrue(AccrueAll(i, penaltyMilli, days[..|days| - 1]), penaltyMilli, days[|days| - 1])
  }

  function Latest(days: seq<int>): int
    requires |days| > 0
  {
    if |days| == 1 then days[0] else Max(Latest(days[..|days| - 1]), days[|days| - 1])
  }

  lemma {:induction false} AccrueKeepsAccrued(i: Installment, penaltyMilli: nat, today: int)
    requires Accrued(i, penaltyMilli)
    ensures Accrued(Accrue(i, penaltyMilli, today), penaltyMilli)
    ensures Unpaid(Accrue(i, penaltyMilli, today)) == Unpaid(i)
    // A row past its deadline that owes no further day is OVERDUE already: the sweep's
    // second branch, which marks it without charging, is never the one taken.
    ensures Unpaid(i) && i.deadline < today && today - i.deadline <= i.penaltyDays ==> i.status == Overdue
  {
    if Unpaid(i) && today > i.deadline && today - i.deadline > i.penaltyDays {
      var daily, owed := PercentOf(i.principal, penaltyMilli), today - i.deadline - i.penaltyDays;
      assert daily * (i.penaltyDays + owed) == daily * i.penaltyDays + daily * owed;
    }
  }

  lemma {:induction false} AccrueTwice(i: Installment, penaltyMilli: nat, first: int, second: int)
    requires Accrued(i, penaltyMilli) && (i.status == Overdue ==> i.penaltyDays > 0)
    ensures Accrue(Accrue(i, penaltyMilli, first), penaltyMilli, second) == Accrue(i, penaltyMilli, Max(first, second))
  {
    AccrueKeepsAccrued(i, penaltyMilli, first);
    var j := Accrue(i, penaltyMilli, first);
    AccrueKeepsAccrued(j, penaltyMilli, second);
    AccrueKeepsAccrued(i, penaltyMilli, Max(first, second));
  }

  /** Penalties do not depend on when the sweep ran: any days, repeated, skipped or out of order,
      leave the row as one sweep on the latest of them would. */
  lemma {:induction false} PenaltyIsPathIndependent(i: Installment, penaltyMilli: nat, days: seq<int>)
    requires Accrued(i, penaltyMilli) && (i.status == Overdue ==> i.penaltyDays > 0) && |days| > 0
    ensures AccrueAll(i, penaltyMilli, days) == Accrue(i, penaltyMilli, Latest(days))
  {
    if |days| == 1 {
      assert AccrueAll(i, penaltyMilli, days[..0]) == i;
    } else {
      PenaltyIsPathIndependent(i, penaltyMilli, days[..|days| - 1]);
      AccrueTwice(i, penaltyMilli, Latest(days[..|days| - 1]), days[|days| - 1]);
    }
  }

  /** For a freshly planned row: principal, fee, and the daily penalty for the most overdue day seen. */
  lemma {:induction false} PenaltyOfFreshRow(i: Installment, penaltyMilli: nat, days: seq<int>)
    requires i.status == Pending && i.penaltyDays == 0 && i.amount == i.principal + i.fee && |days| > 0
    ensures AccrueAll(i, penaltyMilli, days).amount
         == i.principal + i.fee + PercentOf(i.principal, penaltyMilli) * Max(0, Latest(days) - i.deadline)
    ensures AccrueAll(i, penaltyMilli, days).status == if i.deadline < Latest(days) then Overdue else Pending
  {
    PenaltyIsPathIndependent(i, penaltyMilli, days);
  }

  // ---- What a repayment is made of ----

  datatype Split = Split(principal: int, fee: int, penalty: int)

  function PrincipalOf(): Installment -> int {
    (i: Installment) => i.principal
  }

  function FeeOf(): Installment -> int {
    (i: Installment) => i.fee
  }

  function AmountOf(): Installment -> int {
    (i: Installment) => i.amount
  }

  function PenaltyOf(): Installment -> int {
    (i: Installment) => i.amount - i.principal - i.fee
  }

  function RepaymentSplit(rows: seq<Installment>): Split {
    var principal, fee := Sum(rows, PrincipalOf()), Sum(rows, FeeOf());
    Split(principal, fee, Sum(rows, AmountOf()) - principal - fee)
  }

  method ComputeRepaymentSplit(rows: seq<Installment>) returns (split: Split)
    ensures split == RepaymentSplit(rows)
    ensures split.principal + split.fee + split.penalty == Sum(rows, AmountOf())
  {
    var principal, fee, total := 0, 0, 0;
    for n := 0 to |rows|
      invariant principal == Sum(rows[..n], PrincipalOf())
      invariant fee == Sum(rows[..n], FeeOf())
      invariant total == Sum(rows[..n], AmountOf())
    {
      assert rows[..n + 1][..n] == rows[..n];
      principal := principal + rows[n].principal;
      fee := fee + rows[n].fee;
      total := total + rows[n].amount;
    }
    assert rows[..|rows|] == rows;
    split := Split(principal, fee, total - principal - fee);
  }

  /** The penalty recovered from a plan's rows is what the sweeps charged, so it is never negative. */
  lemma {:induction false} PenaltyNeverNegative(rows: seq<Installment>, penaltyMilli: nat)
    requires forall i :: 0 <= i < |rows| ==> rows[i].principal >= 0 && Accrued(rows[i], penaltyMilli)
    ensures RepaymentSplit(rows).penalty == Sum(rows, PenaltyOf())
    ensures RepaymentSplit(rows).penalty >= 0
  {
    SumPenalty(rows);
    forall i | 0 <= i < |rows| ensures PenaltyOf()(rows[i]) >= 0 {
      assert PercentOf(rows[i].principal, penaltyMilli) * rows[i].penaltyDays >= 0;
    }
    SumNonNegative(rows, PenaltyOf());
  }

  lemma {:induction false} SumPenalty(rows: seq<Installment>)
    ensures Sum(rows, PenaltyOf()) == Sum(rows, AmountOf()) - Sum(rows, PrincipalOf()) - Sum(rows, FeeOf())
  {
    if |rows| > 0 {
      SumPenalty(rows[..|rows| - 1]);
    }
  }
}
