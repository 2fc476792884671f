/** The order-execution engine: post an order once, then poll it by id under a
    bounded retry budget until a done predicate accepts the polled snapshot.

    The exchange is an oracle: `post` is what `postOrder` answers, and
    `answers(i)` is what the `i`-th `getOrder` call answers (a snapshot, an
    empty reply meaning "not found", or an error). The backoff delays between
    attempts are scheduling and are not modelled; only the order and number
    of calls are. */
module PositionExecution {
  import opened Common
  import opened Api

  /** The two concrete executions: the buy leg waits for `"done"`, the sell
      leg only for the order to leave `"pending"`. */
  datatype DonePredicate = OrderDone | OrderNotPending

  predicate Done(p: DonePredicate, o: Order)
  {
    match p
    case OrderDone => o.status == Some("done")
    case OrderNotPending => o.status != Some("pending")
  }

  /** Why a single poll attempt failed. */
  datatype PollFailure = OrderNotFound | OrderNotDoneYet | PollError

  datatype ExecError =
    | PostFailed
    | RetriesExhausted(budget: nat, last: PollFailure)

  /** How an execution ends: with the accepted snapshot, empty (the post
      itself answered nothing), or with an error. */
  datatype Execution =
    | Completed(order: Order)
    | CompletedEmpty
    | Failed(error: ExecError)

  /** A call issued to the exchange. */
  datatype ApiCall = PostOrder(request: WriteOrder) | GetOrder(orderId: string)

  predicate Accepts(p: DonePredicate, r: Reply<Order>)
  {
    r.Value? && Done(p, r.value)
  }

  function FailureOf(p: DonePredicate, r: Reply<Order>): PollFailure
    requires !Accepts(p, r)
  {
    match r
    case Value(_) => OrderNotDoneYet
    case Empty => OrderNotFound
    case Error => PollError
  }

  /** The first attempt in `[from, limit)` whose answer is accepted, or
      `limit` if there is none. */
  function FirstAccepted(p: DonePredicate, answers: nat -> Reply<Order>, from: nat, limit: nat): (k: nat)
    requires from <= limit
    ensures from <= k <= limit
    ensures forall j :: from <= j < k ==> !Accepts(p, answers(j))
    ensures k < limit ==> Accepts(p, answers(k))
    decreases limit - from
  {
    if from == limit then limit
    else if Accepts(p, answers(from)) then from
    else FirstAccepted(p, answers, from + 1, limit)
  }

  /** What `execute` ends with, and how many `getOrder` calls it issues. The
      retry budget counts retries, so there are at most `budget + 1` polls. */
  function ExecuteSpec(p: DonePredicate, post: Reply<Order>, answers: nat -> Reply<Order>, budget: nat): (r: (Execution, nat))
    // a failed or empty post is final: nothing is polled
    ensures post.Error? ==> r == (Failed(PostFailed), 0)
    ensures post.Empty? ==> r == (CompletedEmpty, 0)
    ensures post.Value? ==> 1 <= r.1 <= budget + 1 && !r.0.CompletedEmpty?
    // success is exactly the first accepted snapshot, and the poll that found it is the last one
    ensures post.Value? ==> (r.0.Completed? <==> exists k :: 0 <= k <= budget && Accepts(p, answers(k)))
    ensures post.Value? && r.0.Completed? ==>
      Accepts(p, answers(r.1 - 1)) && r.0.order == answers(r.1 - 1).value &&
      forall j :: 0 <= j < r.1 - 1 ==> !Accepts(p, answers(j))
    // otherwise every attempt of the budget was consumed
    ensures post.Value? && r.0.Failed? ==>
      r.1 == budget + 1 && r.0.error == RetriesExhausted(budget, FailureOf(p, answers(budget)))
  {
    match post
    case Error => (Failed(PostFailed), 0)
    case Empty => (CompletedEmpty, 0)
    case Value(_) =>
      var k := FirstAccepted(p, answers, 0, budget + 1);
      if k <= budget then (Completed(answers(k).value), k + 1)
      else (Failed(RetriesExhausted(budget, FailureOf(p, answers(budget)))), budget + 1)
  }

  /** `execute`: the order is posted once, then polled by the posted order's
      id until the predicate holds or the budget is spent. */
  method Execute(p: DonePredicate, request: WriteOrder, post: Reply<Order>, answers: nat -> Reply<Order>, budget: nat)
    returns (result: Execution, calls: seq<ApiCall>)
    ensures |calls| >= 1 && calls[0] == PostOrder(request)
    ensures forall i :: 1 <= i < |calls| ==> post.Value? && calls[i] == GetOrder(post.value.id)
    ensures (result, |calls| - 1) == ExecuteSpec(p, post, answers, budget)
  {
    calls := [PostOrder(request)];
    match post {
      case Error =>
        result := Failed(PostFailed);
      case Empty =>
        result := CompletedEmpty;
      case Value(posted) =>
        var n: nat := 0;
        var last: Reply<Order> := Empty;
        var accepted := false;
        while n <= budget && !accepted
          invariant n <= budget + 1
          invariant |calls| == 1 + n && calls[0] == PostOrder(request)
          invariant forall i :: 1 <= i < |calls| ==> calls[i] == GetOrder(posted.id)
          invariant forall j :: 0 <= j < n && !(accepted && j == n - 1) ==> !Accepts(p, answers(j))
          invariant n > 0 ==> last == answers(n - 1)
          invariant accepted ==> n > 0 && Accepts(p, last)
          decreases budget + 1 - n, if accepted then 0 else 1
        {
          last := answers(n);
          calls := calls + [GetOrder(posted.id)];
          accepted := Accepts(p, last);
          n := n + 1;
        }
        ghost var k := FirstAccepted(p, answers, 0, budget + 1);
        if accepted {
          assert k == n - 1;
          result := Completed(last.value);
        } else {
          assert k == budget + 1;
          result := Failed(RetriesExhausted(budget, FailureOf(p, last)));
        }
    }
  }

  /** Whatever `OrderDone` accepts, `OrderNotPending` accepts too; an order
      without a status is not done but is no longer pending. */
  lemma DoneIsNotPending(o: Order)
    ensures Done(OrderDone, o) ==> Done(OrderNotPending, o)
    ensures o.status.None? ==> !Done(OrderDone, o) && Done(OrderNotPending, o)
    ensures o.status == Some("open") ==> !Done(OrderDone, o) && Done(OrderNotPending, o)
  {
  }

  /** Exhaustion means exactly budget + 1 polls, none of them accepted. */
  lemma ExhaustedConsumesBudget(p: DonePredicate, post: Reply<Order>, answers: nat -> Reply<Order>, budget: nat)
    requires post.Value?
    requires forall k :: 0 <= k <= budget ==> !Accepts(p, answers(k))
    ensures ExecuteSpec(p, post, answers, budget).0.Failed?
    ensures ExecuteSpec(p, post, answers, budget).1 == budget + 1
  {
  }

  /** A snapshot accepted at attempt `k`, after `k` rejected ones, is the result,
      found with `k + 1` polls. */
  lemma FirstDoneWins(p: DonePredicate, post: Reply<Order>, answers: nat -> Reply<Order>, budget: nat, k: nat)
    requires post.Value? && k <= budget
    requires Accepts(p, answers(k))
    requires forall j :: 0 <= j < k ==> !Accepts(p, answers(j))
    ensures ExecuteSpec(p, post, answers, budget) == (Completed(answers(k).value), k + 1)
  {
  }

  /** A client that queries once and replays its snapshot on each retry is
      the oracle whose answers are all the same: the first snapshot decides,
      and a rejected one spends the whole budget. */
  lemma {:induction false} ReplayedSnapshot(p: DonePredicate, post: Reply<Order>, a: Reply<Order>, budget: nat)
    requires post.Value?
    ensures ExecuteSpec(p, post, (j: nat) => a, budget) ==
      if Accepts(p, a) then (Completed(a.value), 1)
      else (Failed(RetriesExhausted(budget, FailureOf(p, a))), budget + 1)
  {
    var answers := (j: nat) => a;
    var k := FirstAccepted(p, answers, 0, budget + 1);
    if Accepts(p, a) {
      assert answers(0) == a;
      assert k == 0;
    } else {
      assert forall j: nat :: answers(j) == a;
      assert answers(budget) == a;
    }
  }
}
