/**
 * The failure classification of apps/facilitator-erc7710/guards.ts: which thrown error is a
 * verdict on the payment, which is no verdict at all, and which leaves the payment in doubt.
 */
module Guards {
  import opened Wrappers
  import opened Journal

  const SETTLEMENT_PENDING := "settlement_pending"
  const DELEGATION_REJECTED := "delegation_rejected"
  const UNEXPECTED_VERIFY_ERROR := "unexpected_verify_error"
  const UNEXPECTED_SETTLE_ERROR := "unexpected_settle_error"
  const MAX_CAUSES: nat := 8

  datatype Kind =
    | RpcUnreachableBeforeBroadcast
    | StorageUnavailable
    | Pending(hash: Hash)
    | Validation(reason: string)
    | BudgetExceeded(code: string)
    | RedemptionRejected
    | ContractReverted
    | ExecutionReverted
    | HttpRequest
    | TimedOut
    | Other

  /** `cause` indexes the next link; an index past the end is a cause that is not an Error. */
  datatype Link = Link(kind: Kind, cause: nat)
  {
    predicate Reverted() { kind.ContractReverted? || kind.ExecutionReverted? }
    predicate Transport() { kind.HttpRequest? || kind.TimedOut? }
  }

  /** A thrown error: its top link, the links it can reach (cycles included), and whether the
      text of its first eight links reads as a rate limit. */
  datatype Thrown = Thrown(links: seq<Link>, top: nat, rateLimitText: bool)
  {
    function Kind(): Kind { if top < |links| then links[top].kind else Other }
  }

  datatype Route = Verify | Settle
  datatype Failure = NotReady | Rejected(code: string) | InDoubt(hash: Hash)

  function Raise(kind: Kind): Thrown { Thrown([Link(kind, 1)], 0, false) }

  /** The first `n` links reachable from `at`. */
  function Causes(links: seq<Link>, at: nat, n: nat): seq<Link>
    decreases n
  {
    if n == 0 || at >= |links| then [] else [links[at]] + Causes(links, links[at].cause, n - 1)
  }

  function Chain(e: Thrown): seq<Link> { Causes(e.links, e.top, MAX_CAUSES) }

  /** Where `k` causes lead from a link. */
  function After(links: seq<Link>, at: nat, k: nat): nat
    decreases k
  {
    if k == 0 || at >= |links| then at else After(links, links[at].cause, k - 1)
  }

  /** The walk sees the links that no more than `n - 1` causes lead to, in that order, up to the first that is no error. */
  lemma {:induction false} CausesInOrder(links: seq<Link>, at: nat, n: nat)
    ensures var chain := Causes(links, at, n);
            && |chain| <= n && (|chain| < n ==> After(links, at, |chain|) >= |links|)
            && forall k :: 0 <= k < |chain| ==> After(links, at, k) < |links| && chain[k] == links[After(links, at, k)]
    decreases n
  {
    if n > 0 && at < |links| {
      CausesInOrder(links, links[at].cause, n - 1);
    }
  }

  predicate RevertSeen(chain: seq<Link>) {
    exists k :: 0 <= k < |chain| && chain[k].Reverted()
  }

  /** A transport failure with no revert above it. */
  predicate TransportFirst(chain: seq<Link>) {
    exists k :: 0 <= k < |chain| && chain[k].Transport() && forall j :: 0 <= j < k ==> !chain[j].Reverted()
  }

  predicate Decided(chain: seq<Link>) {
    exists k :: 0 <= k < |chain| && (chain[k].Reverted() || chain[k].Transport())
  }

  /** Walking the chain from the top, the first revert or transport failure decides. */
  function Walk(chain: seq<Link>, otherwise: bool): bool {
    if chain == [] then otherwise
    else if chain[0].Reverted() then false
    else if chain[0].Transport() then true
    else Walk(chain[1..], otherwise)
  }

  lemma {:induction false} WalkDecides(chain: seq<Link>, otherwise: bool)
    ensures Walk(chain, otherwise) <==> TransportFirst(chain) || (!Decided(chain) && otherwise)
  {
    if chain != [] && !chain[0].Reverted() && !chain[0].Transport() {
      var rest := chain[1..];
      WalkDecides(rest, otherwise);
      assert chain == [chain[0]] + rest;
      assert forall k :: 0 < k < |chain| ==> chain[k] == rest[k - 1];
      assert TransportFirst(rest) ==> TransportFirst(chain) by {
        if TransportFirst(rest) {
          var k :| 0 <= k < |rest| && rest[k].Transport() && forall j :: 0 <= j < k ==> !rest[j].Reverted();
          assert chain[k + 1].Transport();
        }
      }
      assert Decided(rest) ==> Decided(chain) by {
        if Decided(rest) {
          var k :| 0 <= k < |rest| && (rest[k].Reverted() || rest[k].Transport());
          assert chain[k + 1] == rest[k];
        }
      }
    } else if chain != [] && chain[0].Transport() {
      assert !chain[0].Reverted();
    }
  }

  function RpcUnreachable(e: Thrown): bool { Walk(Chain(e), e.rateLimitText) }

  lemma CausesStep(links: seq<Link>, at: nat, n: nat, otherwise: bool)
    requires n > 0 && at < |links|
    ensures var chain := Causes(links, at, n);
            chain == [links[at]] + Causes(links, links[at].cause, n - 1)
            && chain[1..] == Causes(links, links[at].cause, n - 1)
  {
  }

  /** The bounded walk, which a cycle of causes cannot trap. */
  method IsRpcUnreachable(e: Thrown) returns (r: bool)
    ensures r == RpcUnreachable(e)
  {
    var current: nat, depth: nat := e.top, 0;
    while current < |e.links| && depth < MAX_CAUSES
      invariant depth <= MAX_CAUSES
      invariant RpcUnreachable(e) == Walk(Causes(e.links, current, MAX_CAUSES - depth), e.rateLimitText)
      decreases MAX_CAUSES - depth
    {
      var link := e.links[current];
      CausesStep(e.links, current, MAX_CAUSES - depth, e.rateLimitText);
      if link.Reverted() {
        return false;
      }
      if link.Transport() {
        return true;
      }
      current, depth := link.cause, depth + 1;
    }
    r := e.rateLimitText;
  }

  method IsRedemptionRevert(e: Thrown) returns (r: bool)
    ensures r <==> RevertSeen(Chain(e))
  {
    var current: nat, depth: nat := e.top, 0;
    while current < |e.links| && depth < MAX_CAUSES
      invariant depth <= MAX_CAUSES
      invariant RevertSeen(Chain(e)) <==> RevertSeen(Causes(e.links, current, MAX_CAUSES - depth))
      decreases MAX_CAUSES - depth
    {
      var link := e.links[current];
      ghost var here := Causes(e.links, current, MAX_CAUSES - depth);
      ghost var rest := Causes(e.links, link.cause, MAX_CAUSES - depth - 1);
      assert here == [link] + rest;
      if link.Reverted() {
        assert here[0].Reverted();
        return true;
      }
      assert RevertSeen(here) <==> RevertSeen(rest) by {
        assert forall k :: 0 <= k < |rest| ==> rest[k] == here[k + 1];
      }
      current, depth := link.cause, depth + 1;
    }
    r := false;
  }

  /**
   * The guard's own comment has a revert anywhere in the chain settle the question. The code
   * stops at whichever comes first: with a revert in the chain, the RPC still reads as
   * unreachable exactly when a transport failure is wrapped around it.
   */
  lemma RevertDecidesUnlessWrapped(e: Thrown)
    requires RevertSeen(Chain(e))
    ensures RpcUnreachable(e) <==> TransportFirst(Chain(e))
  {
    WalkDecides(Chain(e), e.rateLimitText);
  }

  lemma WrappedRevertReadsAsUnreachable()
    ensures var e := Thrown([Link(HttpRequest, 1), Link(ContractReverted, 2)], 0, false);
            RevertSeen(Chain(e)) && RpcUnreachable(e)
  {
    var e := Thrown([Link(HttpRequest, 1), Link(ContractReverted, 2)], 0, false);
    var chain := Chain(e);
    assert chain == [e.links[0]] + Causes(e.links, 1, 7);
    assert Causes(e.links, 1, 7) == [e.links[1]] + Causes(e.links, 2, 6);
    assert chain[1].Reverted() && chain[0].Transport();
  }

  /** A stage run before the broadcast: a transport death is re-raised as no verdict. */
  function BeforeBroadcast(e: Thrown): Thrown {
    if RpcUnreachable(e)
    then Thrown(e.links + [Link(RpcUnreachableBeforeBroadcast, e.top)], |e.links|, e.rateLimitText)
    else e
  }

  function DescribeFailure(e: Thrown, route: Route): Failure {
    match e.Kind()
    case RpcUnreachableBeforeBroadcast => NotReady
    case StorageUnavailable => NotReady
    case Pending(hash) => InDoubt(hash)
    case Validation(reason) => Rejected(reason)
    case BudgetExceeded(code) => Rejected(code)
    case _ =>
      if e.Kind().RedemptionRejected? || RevertSeen(Chain(e)) then Rejected(DELEGATION_REJECTED)
      else Rejected(if route.Verify? then UNEXPECTED_VERIFY_ERROR else UNEXPECTED_SETTLE_ERROR)
  }

  /** The kinds a library call raises: none of the classes this service throws itself. */
  predicate Foreign(k: Kind) {
    k.ContractReverted? || k.ExecutionReverted? || k.HttpRequest? || k.TimedOut? || k.Other?
  }
}
