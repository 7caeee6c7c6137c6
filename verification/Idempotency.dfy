/** Requests that carry an idempotency key run once: a key row is claimed and completed in the same
    database transaction as the work it guards. The work is any function of the state and the request, its key
    included, to a new state and a response; payload hashes stand for the payloads themselves. */
module Idempotency {
  import opened Common

  datatype Caller = Caller(user: nat, endpoint: string, payload: string)

  datatype Request = Request(key: string, caller: Caller)

  datatype RowStatus = InProgress | Complete

  datatype KeyRow<R> = KeyRow(caller: Caller, status: RowStatus, response: Option<R>)

  datatype Claim<R> = Fresh | Replay(response: Option<R>)

  /** The committed tables: what the work acts on, and the key rows. */
  datatype Store<S, R> = Store(state: S, keys: map<string, KeyRow<R>>)

  type Work<!S, !R> = (S, Request) -> Result<(S, R)>

  // ---- The service ----

  class Service<S(!new), R(!new)> {
    var state: S
    var keys: map<string, KeyRow<R>>
    const work: Work<S, R>

    function Tables(): Store<S, R>
      reads this
    {
      Store(state, keys)
    }

    constructor (state: S, work: Work<S, R>)
      ensures this.work == work && Tables() == Store(state, map[])
    {
      this.state, this.work := state, work;
      keys := map[];
    }

    /** Inserts an IN_PROGRESS row for a new key; a taken key is replayed to the same caller and refused
        to any other, or while its first use is still running. */
    method TryClaim(key: string, caller: Caller) returns (r: Result<Claim<R>>)
      modifies this`keys
      ensures key !in old(keys) ==> r == Ok(Fresh) && keys == old(keys)[key := KeyRow(caller, InProgress, None)]
      ensures key in old(keys) ==> keys == old(keys)
      ensures key in old(keys) ==>
                r == if keys[key].caller != caller || keys[key].status == InProgress then Fail(Conflict)
                     else Ok(Replay(keys[key].response))
    {
      if key !in keys {
        keys := keys[key := KeyRow(caller, InProgress, None)];
        return Ok(Fresh);
      }
      var existing := keys[key];
      if existing.caller != caller {
        return Fail(Conflict);
      }
      if existing.status == InProgress {
        return Fail(Conflict);
      }
      return Ok(Replay(existing.response));
    }

    method Finish(key: string, response: R)
      requires key in keys
      modifies this`keys
      ensures keys == old(keys)[key := old(keys)[key].(status := Complete, response := Some(response))]
    {
      keys := keys[key := keys[key].(status := Complete, response := Some(response))];
    }

    /** One request in one transaction: claim, work, complete; any failure rolls everything back. */
    method Run(request: Request) returns (r: Result<Option<R>>)
      modifies this
      ensures (Tables(), r) == Serve(old(Tables()), work, request)
    {
      if request.key == "" {
        return Fail(InvalidRequest);
      }
      var before := Tables();
      var claim := TryClaim(request.key, request.caller);
      if claim.Fail? {
        return Fail(claim.error);
      }
      if claim.value.Replay? {
        return Ok(claim.value.response);
      }
      var done := work(state, request);
      if done.Fail? {
        state, keys := before.state, before.keys;
        return Fail(done.error);
      }
      state := done.value.0;
      Finish(request.key, done.value.1);
      assert keys == before.keys[request.key := KeyRow(request.caller, Complete, Some(done.value.1))];
      return Ok(Some(done.value.1));
    }

    /** A list of requests, one after the other. */
    method RunAll(requests: seq<Request>)
      modifies this
      ensures Tables() == ServeAll(old(Tables()), work, requests)
    {
      for n := 0 to |requests|
        invariant Tables() == ServeAll(old(Tables()), work, requests[..n])
      {
        assert requests[..n + 1][..n] == requests[..n];
        var _ := Run(requests[n]);
      }
      assert requests[..|requests|] == requests;
    }
  }

  // ---- What it computes ----

  function Serve<S, R>(s: Store<S, R>, work: Work<S, R>, q: Request): (Store<S, R>, Result<Option<R>>) {
    if q.key == "" then (s, Fail(InvalidRequest))
    else if q.key in s.keys then
      if s.keys[q.key].caller != q.caller || s.keys[q.key].status == InProgress then (s, Fail(Conflict))
      else (s, Ok(s.keys[q.key].response))
    else
      match work(s.state, q)
      case Fail(error) => (s, Fail(error))
      case Ok(done) => (Store(done.0, s.keys[q.key := KeyRow(q.caller, Complete, Some(done.1))]), Ok(Some(done.1)))
  }

  function ServeAll<S, R>(s: Store<S, R>, work: Work<S, R>, requests: seq<Request>): Store<S, R> {
    if |requests| == 0 then s
    else Serve(ServeAll(s, work, requests[..|requests| - 1]), work, requests[|requests| - 1]).0
  }

  // ---- What it promises ----

  /** No committed key row is IN_PROGRESS, and each holds the response of the work it guarded. */
  predicate Settled<S, R>(s: Store<S, R>) {
    forall key :: key in s.keys ==> s.keys[key].status == Complete && s.keys[key].response.Some?
  }

  lemma {:induction false} AllSettled<S, R>(s: Store<S, R>, work: Work<S, R>, requests: seq<Request>)
    requires Settled(s)
    ensures Settled(ServeAll(s, work, requests))
  {
    if |requests| > 0 {
      AllSettled(s, work, requests[..|requests| - 1]);
    }
  }

  /** A failed attempt, whatever the reason, leaves state and keys as they were. */
  lemma {:induction false} FailureLeavesNoTrace<S, R>(s: Store<S, R>, work: Work<S, R>, q: Request)
    ensures Serve(s, work, q).1.Fail? ==> Serve(s, work, q).0 == s
    ensures q.key in s.keys ==> Serve(s, work, q).0 == s
  {
  }

  /** A key is taken for good once its request succeeded: later requests find the same row. */
  lemma {:induction false} KeysStay<S, R>(s: Store<S, R>, work: Work<S, R>, requests: seq<Request>, key: string)
    requires key in s.keys
    ensures key in ServeAll(s, work, requests).keys && ServeAll(s, work, requests).keys[key] == s.keys[key]
  {
    if |requests| > 0 {
      KeysStay(s, work, requests[..|requests| - 1], key);
    }
  }

  /** After a request succeeded: the same request again, at any later time, gets the same response and
      changes nothing; the same key for another user, endpoint or payload is refused and changes nothing. */
  lemma {:induction false} RepeatsAreHarmless<S, R>(s: Store<S, R>, work: Work<S, R>, q: Request,
      between: seq<Request>, again: Request)
    requires Settled(s) && Serve(s, work, q).1.Ok? && again.key == q.key
    ensures var later := ServeAll(Serve(s, work, q).0, work, between);
            && Serve(later, work, again).0 == later
            && Serve(later, work, again).1 == if again.caller == q.caller then Serve(s, work, q).1 else Fail(Conflict)
  {
    KeysStay(Serve(s, work, q).0, work, between, q.key);
  }

  /** The requests that count: for each key the first that succeeds, judged by the work alone. */
  function FirstSuccesses<S, R>(state: S, taken: set<string>, work: Work<S, R>, requests: seq<Request>): seq<Request>
    decreases |requests|
  {
    if |requests| == 0 then []
    else
      var q, rest := requests[0], requests[1..];
      if q.key == "" || q.key in taken || work(state, q).Fail? then FirstSuccesses(state, taken, work, rest)
      else [q] + FirstSuccesses(work(state, q).value.0, taken + {q.key}, work, rest)
  }

  /** The bare work, without any keys. */
  function WorkAll<S, R>(state: S, work: Work<S, R>, requests: seq<Request>): Option<S>
    decreases |requests|
  {
    if |requests| == 0 then Some(state)
    else
      match work(state, requests[0])
      case Fail(_) => None
      case Ok(done) => WorkAll(done.0, work, requests[1..])
  }

  lemma {:induction false} ServeFirst<S, R>(s: Store<S, R>, work: Work<S, R>, requests: seq<Request>)
    requires |requests| > 0
    ensures ServeAll(s, work, requests) == ServeAll(Serve(s, work, requests[0]).0, work, requests[1..])
  {
    var n := |requests| - 1;
    if n == 0 {
      assert requests[..0] == [];
    } else {
      ServeFirst(s, work, requests[..n]);
      assert requests[..n][1..] == requests[1..][..n - 1];
    }
  }

  /** Running any list of requests gives the state of running, without keys, just the first successful
      request of each key. */
  lemma {:induction false} EachKeyOnce<S, R>(s: Store<S, R>, work: Work<S, R>, requests: seq<Request>)
    ensures WorkAll(s.state, work, FirstSuccesses(s.state, s.keys.Keys, work, requests))
         == Some(ServeAll(s, work, requests).state)
    decreases |requests|
  {
    if |requests| > 0 {
      ServeFirst(s, work, requests);
      var q, next := requests[0], Serve(s, work, requests[0]).0;
      EachKeyOnce(next, work, requests[1..]);
      if q.key != "" && q.key !in s.keys && work(s.state, q).Ok? {
        assert next.keys.Keys == s.keys.Keys + {q.key};
        var firsts := FirstSuccesses(s.state, s.keys.Keys, work, requests);
        assert firsts[1..] == FirstSuccesses(next.state, next.keys.Keys, work, requests[1..]);
      }
    }
  }

  /** Requests of the list, each with a key of its own that was free before. */
  predicate OncePerKey(firsts: seq<Request>, taken: set<string>, requests: seq<Request>) {
    && (forall i :: 0 <= i < |firsts| ==> firsts[i].key !in taken && firsts[i] in requests)
    && (forall i, j :: 0 <= i < j < |firsts| ==> firsts[i].key != firsts[j].key)
  }

  lemma {:induction false} SkipOne(firsts: seq<Request>, taken: set<string>, q: Request, rest: seq<Request>)
    requires OncePerKey(firsts, taken, rest)
    ensures OncePerKey(firsts, taken, [q] + rest)
  {
    assert ([q] + rest)[1..] == rest;
  }

  lemma {:induction false} TakeOne(firsts: seq<Request>, taken: set<string>, q: Request, rest: seq<Request>)
    requires OncePerKey(firsts, taken + {q.key}, rest) && q.key !in taken
    ensures OncePerKey([q] + firsts, taken, [q] + rest)
  {
    assert ([q] + rest)[1..] == rest;
    assert ([q] + firsts)[1..] == firsts && ([q] + rest)[0] == q;
  }

  /** No key counts twice, and none that was taken before. */
  lemma {:induction false} KeysCountOnce<S, R>(state: S, taken: set<string>, work: Work<S, R>, requests: seq<Request>)
    ensures OncePerKey(FirstSuccesses(state, taken, work, requests), taken, requests)
    decreases |requests|
  {
    hide OncePerKey;
    if |requests| == 0 {
      NothingCounts(taken);
      assert requests == [];
    } else {
      var q, rest := requests[0], requests[1..];
      assert requests == [q] + rest;
      if q.key == "" || q.key in taken || work(state, q).Fail? {
        KeysCountOnce(state, taken, work, rest);
        SkipOne(FirstSuccesses(state, taken, work, rest), taken, q, rest);
      } else {
        var next := work(state, q).value.0;
        KeysCountOnce(next, taken + {q.key}, work, rest);
        TakeOne(FirstSuccesses(next, taken + {q.key}, work, rest), taken, q, rest);
      }
    }
  }

  lemma {:induction false} NothingCounts(taken: set<string>)
    ensures OncePerKey([], taken, [])
  {
  }
}
