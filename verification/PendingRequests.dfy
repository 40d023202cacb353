/** The asks awaiting an answer: two maps under one lock, shared by every child of the harness. */
module PendingRequests {
  import opened Protocol

  /** What the CLI asked: on which thread, by whose child, under which request id of the CLI's. */
  datatype Ask = Ask(thread: ThreadId, owner: ThreadId, request: AskId)

  /** The id under which the facade shows an ask. */
  type CardId = nat

  function Without(asks: map<CardId, Ask>, gone: set<CardId>): map<CardId, Ask> {
    asks - gone
  }

  function OwnedBy(asks: map<CardId, Ask>, owner: ThreadId): set<CardId> {
    set id | id in asks && asks[id].owner == owner
  }

  function OnThread(asks: map<CardId, Ask>, thread: ThreadId): set<CardId> {
    set id | id in asks && asks[id].thread == thread
  }

  function Matching(asks: map<CardId, Ask>, owner: ThreadId, request: AskId): set<CardId> {
    set id | id in asks && asks[id].owner == owner && asks[id].request == request
  }

  lemma {:induction false} RemovalCounts(asks: map<CardId, Ask>, gone: set<CardId>)
    requires gone <= asks.Keys
    ensures |Without(asks, gone)| + |gone| == |asks|
  {
    assert Without(asks, gone).Keys == asks.Keys - gone;
    assert |Without(asks, gone)| == |Without(asks, gone).Keys| && |asks| == |asks.Keys|;
  }

  class PendingRequests {
    var approvals: map<CardId, Ask>
    var requests: map<CardId, Ask>

    constructor ()
      ensures approvals == map[] && requests == map[]
    {
      approvals, requests := map[], map[];
    }

    method InsertApproval(id: CardId, ask: Ask)
      modifies this`approvals
      ensures approvals == old(approvals)[id := ask]
    {
      approvals := approvals[id := ask];
    }

    method InsertServerRequest(id: CardId, ask: Ask)
      modifies this`requests
      ensures requests == old(requests)[id := ask]
    {
      requests := requests[id := ask];
    }

    /** An ask can be taken once: the second taker finds nothing. */
    method RemoveApproval(id: CardId) returns (taken: Option<Ask>)
      modifies this`approvals
      ensures taken.Some? <==> id in old(approvals)
      ensures taken.Some? ==> taken.value == old(approvals)[id]
      ensures id !in approvals && approvals == Without(old(approvals), {id})
    {
      taken := if id in approvals then Some(approvals[id]) else None;
      approvals := approvals - {id};
    }

    method RemoveServerRequest(id: CardId) returns (taken: Option<Ask>)
      modifies this`requests
      ensures taken.Some? <==> id in old(requests)
      ensures taken.Some? ==> taken.value == old(requests)[id]
      ensures id !in requests && requests == Without(old(requests), {id})
    {
      taken := if id in requests then Some(requests[id]) else None;
      requests := requests - {id};
    }

    /** Some card of `asks` the owner's child published under `request`. */
    method Find(asks: map<CardId, Ask>, owner: ThreadId, request: AskId) returns (found: Option<CardId>)
      ensures found.None? <==> Matching(asks, owner, request) == {}
      ensures found.Some? ==> found.value in Matching(asks, owner, request)
    {
      var left := asks.Keys;
      found := None;
      while left != {}
        invariant left <= asks.Keys
        invariant forall id <- asks.Keys - left :: id !in Matching(asks, owner, request)
        decreases |left|
      {
        var id :| id in left;
        left := left - {id};
        if asks[id].owner == owner && asks[id].request == request {
          return Some(id);
        }
      }
    }

    /** Withdraw one ask of the owner's child, an approval before a server request. Asks of other
        children, and other asks of this one, stay. */
    method RemoveByRequestId(owner: ThreadId, request: AskId) returns (kind: Option<AskKind>, id: CardId)
      modifies this
      ensures kind == Some(Approval) <==> Matching(old(approvals), owner, request) != {}
      ensures kind.None? <==> Matching(old(approvals), owner, request) + Matching(old(requests), owner, request) == {}
      ensures kind == Some(Approval) ==>
                && id in Matching(old(approvals), owner, request)
                && approvals == Without(old(approvals), {id}) && requests == old(requests)
      ensures kind == Some(ServerRequest) ==>
                && id in Matching(old(requests), owner, request)
                && approvals == old(approvals) && requests == Without(old(requests), {id})
      ensures kind.None? ==> approvals == old(approvals) && requests == old(requests)
    {
      id := 0;
      var approval := Find(approvals, owner, request);
      if approval.Some? {
        approvals := approvals - {approval.value};
        return Some(Approval), approval.value;
      }
      var found := Find(requests, owner, request);
      if found.Some? {
        requests := requests - {found.value};
        return Some(ServerRequest), found.value;
      }
      kind := None;
    }

    method Len() returns (n: nat)
      ensures n == |approvals| + |requests|
    {
      n := |approvals| + |requests|;
    }

    /** How many asks the owner's child published that nothing answered yet. */
    method CountOwner(owner: ThreadId) returns (n: nat)
      ensures n == |OwnedBy(approvals, owner)| + |OwnedBy(requests, owner)|
    {
      n := CountIn(approvals, owner);
      var m := CountIn(requests, owner);
      n := n + m;
    }

    static method CountIn(asks: map<CardId, Ask>, owner: ThreadId) returns (n: nat)
      ensures n == |OwnedBy(asks, owner)|
    {
      var left := asks.Keys;
      n := 0;
      while left != {}
        invariant left <= asks.Keys
        invariant n == |OwnedBy(asks, owner) - left|
        decreases |left|
      {
        var id :| id in left;
        var rest := left - {id};
        if asks[id].owner == owner {
          assert OwnedBy(asks, owner) - rest == (OwnedBy(asks, owner) - left) + {id};
          n := n + 1;
        } else {
          assert OwnedBy(asks, owner) - rest == OwnedBy(asks, owner) - left;
        }
        left := rest;
      }
      assert OwnedBy(asks, owner) - left == OwnedBy(asks, owner);
    }

    /** Drop every ask of the owner's child, and no other; the result is how many there were. */
    method RemoveOwner(owner: ThreadId) returns (n: nat)
      modifies this
      ensures approvals == Without(old(approvals), OwnedBy(old(approvals), owner))
      ensures requests == Without(old(requests), OwnedBy(old(requests), owner))
      ensures n == |OwnedBy(old(approvals), owner)| + |OwnedBy(old(requests), owner)|
      ensures OwnedBy(approvals, owner) == {} && OwnedBy(requests, owner) == {}
    {
      var before := Len();
      RemovalCounts(approvals, OwnedBy(approvals, owner));
      RemovalCounts(requests, OwnedBy(requests, owner));
      approvals := map id | id in approvals && approvals[id].owner != owner :: approvals[id];
      requests := map id | id in requests && requests[id].owner != owner :: requests[id];
      assert approvals == Without(old(approvals), OwnedBy(old(approvals), owner));
      assert requests == Without(old(requests), OwnedBy(old(requests), owner));
      var after := Len();
      n := before - after;
    }

    /** Drop every ask published on one thread, and no other. */
    method RemoveThread(thread: ThreadId) returns (n: nat)
      modifies this
      ensures approvals == Without(old(approvals), OnThread(old(approvals), thread))
      ensures requests == Without(old(requests), OnThread(old(requests), thread))
      ensures n == |OnThread(old(approvals), thread)| + |OnThread(old(requests), thread)|
      ensures OnThread(approvals, thread) == {} && OnThread(requests, thread) == {}
    {
      var before := Len();
      RemovalCounts(approvals, OnThread(approvals, thread));
      RemovalCounts(requests, OnThread(requests, thread));
      approvals := map id | id in approvals && approvals[id].thread != thread :: approvals[id];
      requests := map id | id in requests && requests[id].thread != thread :: requests[id];
      assert approvals == Without(old(approvals), OnThread(old(approvals), thread));
      assert requests == Without(old(requests), OnThread(old(requests), thread));
      var after := Len();
      n := before - after;
    }

    method Clear() returns (n: nat)
      modifies this
      ensures approvals == map[] && requests == map[]
      ensures n == |old(approvals)| + |old(requests)|
    {
      n := Len();
      approvals, requests := map[], map[];
    }
  }

  /** With the CLI's ids unique across a child's asks, a withdrawal leaves none of its ask behind. */
  lemma WithdrawalIsComplete(approvals: map<CardId, Ask>, requests: map<CardId, Ask>, owner: ThreadId,
                             request: AskId, id: CardId)
    requires |Matching(approvals, owner, request)| + |Matching(requests, owner, request)| <= 1
    requires id in Matching(approvals, owner, request)
    ensures Matching(Without(approvals, {id}), owner, request) == {}
    ensures Matching(requests, owner, request) == {}
  {
    var found := Matching(approvals, owner, request);
    assert found == {id} + (found - {id});
    assert |found - {id}| == |found| - 1;
    assert |Matching(requests, owner, request)| == 0;
  }
}
