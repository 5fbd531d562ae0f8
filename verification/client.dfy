/** `BinanceClient` (app/binance_client.py): the timestamp offset it keeps in
    step with the exchange's clock, and `place_order`, which submits a request
    and, on the exchange's timestamp error, re-syncs the clock and submits the
    same request once more.

    The exchange is an oracle: `Exchange(attempt, request, offset)` is its
    reply to the `attempt`-th submission (1 or 2) of `request` signed with
    `offset`. The server time it reports is an `Option<int>` (`None` when
    `get_server_time` fails) and the local clock reading, `int(time.time() *
    1000)`, is a parameter. */
module Client {
  import opened Wrappers
  import opened Orders

  /** The exchange's response to an accepted order (a JSON object). */
  datatype OrderResponse = OrderResponse(orderId: int, status: string, executedQty: string)

  /** What one submission gives back: the response, a `BinanceAPIException`
      with its code and message, or another failure of the call. */
  datatype Reply =
    | Accepted(response: OrderResponse)
    | Rejected(code: int, message: string)
    | Failed(message: string)

  type Exchange = (nat, Request, int) -> Reply

  /** The exchange's error code for a request whose timestamp is outside the
      receive window. */
  const TimestampError := -1021

  predicate IsClockSkew(reply: Reply) {
    reply.Rejected? && reply.code == TimestampError
  }

  /** What the caller of `place_order` sees of one reply. */
  function ReplyResult(reply: Reply): (r: Result<OrderResponse, ClientError>)
    ensures r.Success? <==> reply.Accepted?
    ensures reply.Accepted? ==> r == Success(reply.response)
    ensures reply.Rejected? ==> r == Failure(ApiError(reply.code, reply.message))
    ensures reply.Failed? ==> r == Failure(TransportError(reply.message))
  {
    match reply
    case Accepted(resp) => Success(resp)
    case Rejected(code, msg) => Failure(ApiError(code, msg))
    case Failed(msg) => Failure(TransportError(msg))
  }

  /** The observable steps of the client: a signed submission, or a call of
      `_sync_time` with the server time it got back. */
  datatype Event =
    | Submitted(request: Request, offset: int)
    | Resynced(serverTime: Option<int>, localTime: int)

  /** The offset after `_sync_time` (app/binance_client.py:41-63): server time
      minus local time when the server answers, the previous offset when the
      call fails in any way. */
  function Synced(offset: int, serverTime: Option<int>, localTime: int): (r: int)
    ensures serverTime.Some? ==> localTime + r == serverTime.value
    ensures serverTime.None? ==> r == offset
  {
    match serverTime
    case Some(t) => t - localTime
    case None => offset
  }

  /** The result, the new offset and the steps of one `place_order`. */
  datatype Outcome = Outcome(result: Result<OrderResponse, ClientError>, offset: int, events: seq<Event>)

  /** The number of submissions among `events`. */
  function Submissions(events: seq<Event>): nat {
    if events == [] then 0
    else (if events[0].Submitted? then 1 else 0) + Submissions(events[1..])
  }

  /** The number of re-syncs among `events`. */
  function Resyncs(events: seq<Event>): nat {
    if events == [] then 0
    else (if events[0].Resynced? then 1 else 0) + Resyncs(events[1..])
  }

  /** Counting is additive over concatenated histories. */
  lemma {:induction false} CountsAppend(a: seq<Event>, b: seq<Event>)
    ensures Submissions(a + b) == Submissions(a) + Submissions(b)
    ensures Resyncs(a + b) == Resyncs(a) + Resyncs(b)
  {
    if a == [] {
      assert a + b == b;
    } else {
      assert (a + b)[1..] == a[1..] + b;
      CountsAppend(a[1..], b);
    }
  }

  /** `place_order` (app/binance_client.py:95-219) as a function of its
      arguments, the offset before the call, the exchange, and the server and
      local times `_sync_time` would read on a retry. */
  function PlaceOrderOutcome(a: OrderArgs, offset: int, exchange: Exchange,
                             serverTime: Option<int>, localTime: int): (o: Outcome)
    // invalid arguments: a ValueError and nothing sent
    ensures BuildRequest(a).Failure? ==> o == Outcome(Failure(BuildRequest(a).error), offset, [])
    // otherwise the request goes out once, signed with the current offset
    ensures BuildRequest(a).Success? ==>
              var req := BuildRequest(a).value;
              var first := exchange(1, req, offset);
              // any reply but a timestamp error is final
              && (!IsClockSkew(first) ==>
                    o == Outcome(ReplyResult(first), offset, [Submitted(req, offset)]))
              // a timestamp error: one re-sync, then the same request once more
              && (IsClockSkew(first) ==>
                    var offset' := Synced(offset, serverTime, localTime);
                    o == Outcome(ReplyResult(exchange(2, req, offset')), offset',
                                 [Submitted(req, offset), Resynced(serverTime, localTime),
                                  Submitted(req, offset')]))
  {
    match BuildRequest(a)
    case Failure(e) => Outcome(Failure(e), offset, [])
    case Success(req) =>
      var first := exchange(1, req, offset);
      if IsClockSkew(first) then
        var offset' := Synced(offset, serverTime, localTime);
        var again := RebuildRequest(a).value;
        Outcome(ReplyResult(exchange(2, again, offset')), offset',
                [Submitted(req, offset), Resynced(serverTime, localTime), Submitted(again, offset')])
      else
        Outcome(ReplyResult(first), offset, [Submitted(req, offset)])
  }

  /** At most two submissions and at most one re-sync, and the re-sync happens
      exactly when the first reply was a timestamp error. */
  lemma SubmissionBounds(a: OrderArgs, offset: int, exchange: Exchange, serverTime: Option<int>, localTime: int)
    ensures var o := PlaceOrderOutcome(a, offset, exchange, serverTime, localTime);
            && Submissions(o.events) <= 2
            && Resyncs(o.events) <= 1
            && (Resyncs(o.events) == 1 <==>
                  BuildRequest(a).Success? && IsClockSkew(exchange(1, BuildRequest(a).value, offset)))
            && (Submissions(o.events) == 2 <==> Resyncs(o.events) == 1)
  {
    var o := PlaceOrderOutcome(a, offset, exchange, serverTime, localTime);
    var e := o.events;
    if |e| == 3 {
      CountsAppend([e[0]], [e[1], e[2]]);
      CountsAppend([e[1]], [e[2]]);
      assert e == [e[0]] + [e[1], e[2]] && [e[1], e[2]] == [e[1]] + [e[2]];
    }
  }

  /** The offset changes only through a successful re-sync. */
  lemma OffsetChangesOnlyOnResync(a: OrderArgs, offset: int, exchange: Exchange, serverTime: Option<int>, localTime: int)
    ensures var o := PlaceOrderOutcome(a, offset, exchange, serverTime, localTime);
            o.offset != offset ==> Resynced(serverTime, localTime) in o.events && serverTime.Some?
  {
  }

  /** Skew, then success: one re-sync, and the second attempt's response is
      returned. */
  lemma RetrySucceeds(a: OrderArgs, offset: int, exchange: Exchange, serverTime: Option<int>, localTime: int,
                      resp: OrderResponse)
    requires BuildRequest(a).Success?
    requires IsClockSkew(exchange(1, BuildRequest(a).value, offset))
    requires exchange(2, BuildRequest(a).value, Synced(offset, serverTime, localTime)) == Accepted(resp)
    ensures var o := PlaceOrderOutcome(a, offset, exchange, serverTime, localTime);
            o.result == Success(resp) && Resyncs(o.events) == 1 && Submissions(o.events) == 2
  {
    SubmissionBounds(a, offset, exchange, serverTime, localTime);
  }

  /** An exchange that always reports a timestamp error sees exactly two
      submissions, and the error of the second, re-synced attempt is the one
      that reaches the caller. */
  lemma AlwaysSkewed(a: OrderArgs, offset: int, exchange: Exchange, serverTime: Option<int>, localTime: int)
    requires BuildRequest(a).Success?
    requires forall n, off :: IsClockSkew(exchange(n, BuildRequest(a).value, off))
    ensures var o := PlaceOrderOutcome(a, offset, exchange, serverTime, localTime);
            var second := exchange(2, BuildRequest(a).value, Synced(offset, serverTime, localTime));
            && o.result == ReplyResult(second)
            && o.result.Failure? && o.result.error.ApiError? && o.result.error.code == TimestampError
            && Submissions(o.events) == 2
  {
    SubmissionBounds(a, offset, exchange, serverTime, localTime);
  }

  /** Any other exchange error is raised at once: one submission, no re-sync,
      the offset untouched. */
  lemma OtherErrorsNotRetried(a: OrderArgs, offset: int, exchange: Exchange, serverTime: Option<int>, localTime: int)
    requires BuildRequest(a).Success?
    requires var first := exchange(1, BuildRequest(a).value, offset); first.Rejected? && first.code != TimestampError
    ensures var o := PlaceOrderOutcome(a, offset, exchange, serverTime, localTime);
            var first := exchange(1, BuildRequest(a).value, offset);
            && o.result == Failure(ApiError(first.code, first.message))
            && o.offset == offset && Submissions(o.events) == 1 && Resyncs(o.events) == 0
  {
  }

  class BinanceClient {
    /** `client.timestamp_offset`, added to the local clock when a request is signed. */
    var timestampOffset: int
    /** Every submission and re-sync this client has made, oldest first. */
    ghost var history: seq<Event>

    /** The constructor's `_sync_time` call (app/binance_client.py:39), starting
        from the library's initial offset of 0. */
    constructor (serverTime: Option<int>, localTime: int)
      ensures timestampOffset == Synced(0, serverTime, localTime)
      ensures history == [Resynced(serverTime, localTime)]
    {
      timestampOffset := 0;
      history := [];
      new;
      SyncTime(serverTime, localTime);
    }

    /** `_sync_time` (app/binance_client.py:41-63): it never raises. */
    method SyncTime(serverTime: Option<int>, localTime: int)
      modifies this
      ensures timestampOffset == Synced(old(timestampOffset), serverTime, localTime)
      ensures history == old(history) + [Resynced(serverTime, localTime)]
    {
      match serverTime {
        case Some(t) => timestampOffset := t - localTime;
        case None =>
      }
      history := history + [Resynced(serverTime, localTime)];
    }

    /** One signed call to the exchange. */
    method Submit(attempt: nat, req: Request, exchange: Exchange) returns (reply: Reply)
      modifies this
      ensures reply == exchange(attempt, req, timestampOffset)
      ensures timestampOffset == old(timestampOffset)
      ensures history == old(history) + [Submitted(req, timestampOffset)]
    {
      reply := exchange(attempt, req, timestampOffset);
      history := history + [Submitted(req, timestampOffset)];
    }

    /** `place_order` (app/binance_client.py:65-219). */
    method PlaceOrder(a: OrderArgs, exchange: Exchange, serverTime: Option<int>, localTime: int)
      returns (result: Result<OrderResponse, ClientError>)
      modifies this
      ensures var o := PlaceOrderOutcome(a, old(timestampOffset), exchange, serverTime, localTime);
              && result == o.result
              && timestampOffset == o.offset
              && history == old(history) + o.events
    {
      var built := BuildRequest(a);
      if built.Failure? {
        return Failure(built.error);
      }
      var reply := Submit(1, built.value, exchange);
      if IsClockSkew(reply) {
        SyncTime(serverTime, localTime);
        var again := RebuildRequest(a);
        reply := Submit(2, again.value, exchange);
      }
      result := ReplyResult(reply);
    }
  }
}
