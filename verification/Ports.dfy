/**
 The engine's environment. Every answer is arbitrary, except where a clause states the one
 thing assumed of it. The broker and the decider keep the record of what they were asked.
 */
module Ports {
  import opened Domain
  import opened Trace

  datatype PlaceAnswer = Accepted(id: OrderId) | Failed(maybeDelivered: bool)

  function OutcomeOf(ans: PlaceAnswer): Outcome {
    match ans
    case Accepted(_) => Took
    case Failed(maybe) => if maybe then Unknown else Refused
  }

  class Broker {
    /** Ids ever handed out for passive orders. */
    var makerIds: set<OrderId>
    /** Every id handed out, in order. */
    ghost var issued: seq<OrderId>
    /** Terminal executed counts ever reported. */
    ghost var answers: set<(OrderId, nat)>
    /** Every placement request received. */
    ghost var rpcs: seq<Rpc>
    /** How many cancels went unanswered and placements failed. */
    ghost var refusals: nat

    constructor ()
      ensures makerIds == {} && issued == [] && answers == {} && rpcs == [] && refusals == 0
    {
      makerIds, issued, answers, rpcs, refusals := {}, [], {}, [], 0;
    }

    method Cancel(id: OrderId) returns (executed: nat, ok: bool)
      modifies this`answers, this`refusals
      ensures answers == old(answers) + if ok then {(id, executed)} else {}
      ensures refusals == old(refusals) + if ok then 0 else 1
    {
      executed, ok := *, *;
      if ok {
        answers := answers + {(id, executed)};
      } else {
        refusals := refusals + 1;
      }
    }

    method Status(id: OrderId) returns (executed: nat, terminal: bool, ok: bool)
      modifies this`answers
      ensures answers == old(answers) + if ok && terminal then {(id, executed)} else {}
    {
      executed, terminal, ok := *, *, *;
      if ok && terminal {
        answers := answers + {(id, executed)};
      }
    }

    /** Places a passive order. The id may be empty or one already in use. */
    method PlaceMaker(leg: Leg, isBid: bool, lots: int, price: real) returns (ans: PlaceAnswer)
      modifies this`makerIds, this`issued, this`rpcs, this`refusals
      ensures makerIds == old(makerIds) + if ans.Accepted? then {ans.id} else {}
      ensures issued == old(issued) + if ans.Accepted? then [ans.id] else []
      ensures rpcs == old(rpcs) + [MakerRpc(leg, isBid, lots, OutcomeOf(ans))]
      ensures refusals == old(refusals) + if ans.Accepted? then 0 else 1
    {
      ans := *;
      rpcs := rpcs + [MakerRpc(leg, isBid, lots, OutcomeOf(ans))];
      if ans.Accepted? {
        makerIds := makerIds + {ans.id};
        issued := issued + [ans.id];
      } else {
        refusals := refusals + 1;
      }
    }

    /** Places a market order. The id may be empty or one already in use, but it is not the
        id of one of the engine's passive orders. */
    method PlaceTaker(leg: Leg, buy: bool, lots: int) returns (ans: PlaceAnswer)
      modifies this`issued, this`rpcs, this`refusals
      ensures ans.Accepted? && ans.id != NoId ==> ans.id !in makerIds
      ensures issued == old(issued) + if ans.Accepted? then [ans.id] else []
      ensures rpcs == old(rpcs) + [TakerRpc(leg, buy, lots, OutcomeOf(ans))]
      ensures refusals == old(refusals) + if ans.Accepted? then 0 else 1
    {
      ans := *;
      if ans.Accepted? && ans.id in makerIds {
        ans := Accepted(NoId);
      }
      rpcs := rpcs + [TakerRpc(leg, buy, lots, OutcomeOf(ans))];
      if ans.Accepted? {
        issued := issued + [ans.id];
      } else {
        refusals := refusals + 1;
      }
    }
  }

  /** The decider, the quote book and the rate limiter, as arbitrary answers. */
  class Desk {
    /** The intents booked in the decider's own lot book. */
    ghost var committed: seq<Intent>

    constructor ()
      ensures committed == []
    {
      committed := [];
    }

    method Commit(intent: Intent)
      modifies this`committed
      ensures committed == old(committed) + [intent]
    {
      committed := committed + [intent];
    }

    method Peek() returns (intent: Intent) {
      intent := *;
    }

    method Position() returns (p: int) {
      p := *;
    }

    /** Both touches valid and fresh, and no open-backoff running. */
    method CanQuote() returns (ok: bool) {
      ok := *;
    }

    /** The book update is for this leg and changes its touch. */
    method Update(leg: Leg) returns (ok: bool) {
      ok := *;
    }

    method Allow() returns (ok: bool) {
      ok := *;
    }

    /** The resting order has been out-quoted, has rested long enough and fits the quota. */
    method RepegDue(leg: Leg) returns (due: bool) {
      due := *;
    }

    method MinRestElapsed() returns (elapsed: bool) {
      elapsed := *;
    }

    method BookStale() returns (stale: bool) {
      stale := *;
    }

    method Touch(leg: Leg, isBid: bool) returns (p: real) {
      p := *;
    }
  }
}
