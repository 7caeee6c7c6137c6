/** The money engine behind the key table: the key a request carries is also the key of the rows it writes. */
module IdempotentBank {
  import opened Common
  import opened Bank
  import opened Safety
  import Keyed = Idempotency

  /** What a request asks of the engine, its key included, and what is answered. */
  datatype Endpoint<!R> = Endpoint(op: Keyed.Request -> Op, answer: (State, State) -> R)

  function Guarded<R>(e: Endpoint<R>): Keyed.Work<State, R> {
    (s: State, q: Keyed.Request) =>
      match Step(s, e.op(q))
      case Ok(after) => Ok((after, e.answer(s, after)))
      case Fail(error) => Fail(error)
  }

  function OpsOf<R>(e: Endpoint<R>, requests: seq<Keyed.Request>): seq<Op> {
    if |requests| == 0 then [] else [e.op(requests[0])] + OpsOf(e, requests[1..])
  }

  lemma {:induction false} RunFirst(s: State, op: Op, ops: seq<Op>)
    ensures Run(s, [op] + ops) == Run(Next(s, op), ops)
  {
    hide Next;
    var all := [op] + ops;
    if |ops| == 0 {
      assert all[..0] == [] && all[0] == op;
    } else {
      RunFirst(s, op, ops[..|ops| - 1]);
      assert all[..|all| - 1] == [op] + ops[..|ops| - 1] && all[|all| - 1] == ops[|ops| - 1];
    }
  }

  lemma {:induction false} WorkIsRun<R>(s: State, e: Endpoint<R>, requests: seq<Keyed.Request>)
    requires Keyed.WorkAll(s, Guarded(e), requests).Some?
    ensures Keyed.WorkAll(s, Guarded(e), requests).value == Run(s, OpsOf(e, requests))
    decreases |requests|
  {
    hide Step;
    if |requests| > 0 {
      var next := Step(s, e.op(requests[0])).value;
      WorkIsRun(next, e, requests[1..]);
      RunFirst(s, e.op(requests[0]), OpsOf(e, requests[1..]));
    }
  }

  /** Whatever is sent, and however often it is repeated: the tables are those of one run of the engine, in which
      every key counts once and every request goes through. */
  lemma {:induction false} EveryKeyMovesMoneyOnce<R>(s: Keyed.Store<State, R>, e: Endpoint<R>,
      requests: seq<Keyed.Request>)
    ensures var firsts := Keyed.FirstSuccesses(s.state, s.keys.Keys, Guarded(e), requests);
            && Keyed.ServeAll(s, Guarded(e), requests).state == Run(s.state, OpsOf(e, firsts))
            && Keyed.OncePerKey(firsts, s.keys.Keys, requests)
  {
    hide Run, Keyed.OncePerKey;
    var firsts := Keyed.FirstSuccesses(s.state, s.keys.Keys, Guarded(e), requests);
    Keyed.EachKeyOnce(s, Guarded(e), requests);
    Keyed.KeysCountOnce(s.state, s.keys.Keys, Guarded(e), requests);
    WorkIsRun(s.state, e, firsts);
  }

  /** So the books agree after any traffic whose first successes are safe. */
  lemma {:induction false} BooksAgreeBehindKeys<R>(s: Keyed.Store<State, R>, e: Endpoint<R>,
      requests: seq<Keyed.Request>)
    requires Fresh(s.state)
    requires SafeRun(s.state, OpsOf(e, Keyed.FirstSuccesses(s.state, s.keys.Keys, Guarded(e), requests)))
    ensures BooksAgree(Keyed.ServeAll(s, Guarded(e), requests).state)
  {
    hide Run, SafeRun, Fresh, BooksAgree;
    EveryKeyMovesMoneyOnce(s, e, requests);
    BooksAgreeAlways(s.state, OpsOf(e, Keyed.FirstSuccesses(s.state, s.keys.Keys, Guarded(e), requests)));
  }
}
