/** The service that owns the journal: the only writer of entries, with its account cache and
    the balance-change events it emits. The journal is the one the open transaction sees; what becomes of the
    events when that is rolled back is told in `Feed`. */
module GeneralLedger {
  import opened Common
  import opened Sums
  import opened Ledger

  type AccountId = nat
  type AccountKey = (AccountCode, CurrencyId)

  class LedgerService {
    /** The seeded accounts; no request adds to them. */
    const accounts: map<AccountKey, AccountId>
    var accountCache: map<AccountKey, AccountId>
    var journal: Journal
    var events: seq<BalanceChanged>

    ghost predicate Valid()
      reads this
    {
      && (forall k :: k in accountCache ==> k in accounts && accountCache[k] == accounts[k])
      && Balanced(journal)
      && (forall i, k :: 0 <= i < |journal| && 0 <= k < |journal[i].legs| ==> Seeded(journal[i].legs[k]))
      && events == EventsOfJournal(journal)
    }

    predicate Seeded(l: Leg) {
      (l.code, l.currency) in accounts
    }

    constructor (accounts: map<AccountKey, AccountId>)
      ensures Valid() && this.accounts == accounts
      ensures journal == [] && events == []
    {
      this.accounts := accounts;
      accountCache, journal, events := map[], [], [];
    }

    /** The cache never answers differently from the table. */
    method GetAccount(code: AccountCode, currency: CurrencyId) returns (r: Result<AccountId>)
      requires Valid()
      modifies this`accountCache
      ensures Valid()
      ensures r == if (code, currency) in accounts then Ok(accounts[(code, currency)]) else Fail(NoAccount)
    {
      var key := (code, currency);
      if key in accountCache {
        return Ok(accountCache[key]);
      }
      if key !in accounts {
        return Fail(NoAccount);
      }
      accountCache := accountCache[key := accounts[key]];
      return Ok(accounts[key]);
    }

    /** Adds up the legs per currency: debits positive, credits negative. */
    method TotalsByCurrency(legs: seq<Leg>) returns (r: Result<map<CurrencyId, int>>)
      ensures r.Ok? <==> forall i :: 0 <= i < |legs| ==> legs[i].amount > 0
      ensures r.Fail? ==> r.error == NonPositiveLeg
      ensures r.Ok? ==> r.value.Keys == set i | 0 <= i < |legs| :: legs[i].currency
      ensures r.Ok? ==> forall c :: c in r.value ==> r.value[c] == Sum(legs, SignedIn(c))
    {
      var totals: map<CurrencyId, int> := map[];
      for n := 0 to |legs|
        invariant forall i :: 0 <= i < n ==> legs[i].amount > 0
        invariant totals.Keys == set i | 0 <= i < n :: legs[i].currency
        invariant forall c: CurrencyId :: (if c in totals then totals[c] else 0) == Sum(legs[..n], SignedIn(c))
      {
        var leg := legs[n];
        if leg.amount <= 0 {
          return Fail(NonPositiveLeg);
        }
        var signed := if leg.direction == Debit then leg.amount else -leg.amount;
        totals := totals[leg.currency := (if leg.currency in totals then totals[leg.currency] else 0) + signed];
        forall c: CurrencyId ensures Sum(legs[..n + 1], SignedIn(c)) == Sum(legs[..n], SignedIn(c)) + SignedIn(c)(leg) {
          assert legs[..n + 1] == legs[..n] + [leg];
          SumSnoc(legs[..n], leg, SignedIn(c));
        }
      }
      assert legs[..|legs|] == legs;
      return Ok(totals);
    }

    /** Inserts an entry exactly when it has at least two legs, all positive, all on seeded accounts,
        and nets to zero in every currency; otherwise journal and events stay as they were. */
    method PostEntry(tx: TxId, legs: seq<Leg>) returns (r: Result<nat>)
      requires Valid()
      modifies this
      ensures Valid()
      ensures r.Ok? <==> Acceptable(legs) && forall i :: 0 <= i < |legs| ==> Seeded(legs[i])
      ensures r.Ok? ==> r.value == old(|journal|) && journal == old(journal) + [Entry(tx, legs)]
                        && events == old(events) + EventsOf(Entry(tx, legs))
      ensures r.Fail? ==> journal == old(journal) && events == old(events)
      ensures |legs| < 2 ==> r == Fail(TooFewLegs)
    {
      if |legs| < 2 {
        return Fail(TooFewLegs);
      }
      var totals :- TotalsByCurrency(legs);
      var left := totals.Keys;
      while left != {}
        invariant left <= totals.Keys
        invariant forall c :: c in totals && c !in left ==> totals[c] == 0
      {
        var c :| c in left;
        if totals[c] != 0 {
          assert Sum(legs, SignedIn(c)) != 0;
          return Fail(Unbalanced);
        }
        left := left - {c};
      }
      forall c: CurrencyId ensures Sum(legs, SignedIn(c)) == 0 {
        if c !in totals {
          AbsentCurrency(legs, c);
        }
      }
      // The entry row is saved before its accounts are looked up; a missing account rolls it back.
      for n := 0 to |legs|
        invariant Valid() && journal == old(journal) && events == old(events)
        invariant forall i :: 0 <= i < n ==> Seeded(legs[i])
      {
        var account := GetAccount(legs[n].code, legs[n].currency);
        if account.Fail? {
          assert !Seeded(legs[n]);
          return Fail(NoAccount);
        }
      }
      var entry := Entry(tx, legs);
      AcceptedKeepsBalanced(journal, entry);
      assert (journal + [entry])[..|journal|] == journal;
      r := Ok(|journal|);
      journal := journal + [entry];
      events := events + EventsOf(entry);
    }
  }
}
