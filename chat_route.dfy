/** The `POST /api/chat` handler: read the caller's ledger from the
    `rateLimit` cookie, decide the request, and either refuse it or answer
    with the text of the completion service. */
module ChatRoute {
  import opened Wrappers
  import opened RateLimit

  const TooManyRequests: string := "Too many requests, please try again later."
  const GenerationFailed: string := "Error generating response"
  const NoResponse: string := "No response"

  /** The `rateLimit` cookie as the request carries it: absent (or empty),
      a ledger, or text that is not JSON. */
  datatype Cookie = NoCookie | Ledger(state: LedgerState) | Unparseable

  /** What the completion call gave back: its choices, each with the
      content of its message when there is one, or an exception. */
  datatype Completion = Choices(contents: seq<Option<string>>) | Threw

  datatype Payload =
    | Throttled(message: string, timeUntilReset: int)
    | Answer(message: string, remainingRequests: int)
    | Failed(message: string)
      /** an exception escaped the handler; the framework answers 500 */
    | Uncaught

  /** A response with its status and the ledger it sets as a cookie, if any. */
  datatype Response = Response(status: int, payload: Payload, setCookie: Option<LedgerState>)

  /** The prior ledger: the fresh one without a cookie, none at all when
      the cookie cannot be parsed (the parse throws). */
  function PriorState(cookie: Cookie): (s: Option<LedgerState>)
    ensures s.None? <==> cookie.Unparseable?
    ensures cookie.NoCookie? ==> s == Some(LedgerState(0, 0))
    ensures cookie.Ledger? ==> s == Some(cookie.state)
  {
    match cookie
    case NoCookie => Some(Fresh)
    case Ledger(state) => Some(state)
    case Unparseable => None
  }

  /** The reply text: the first choice's content, or a fixed fallback
      when that content is absent or empty. */
  function ResponseText(content: Option<string>): (t: string)
    ensures t != []
    ensures content.Some? && content.value != [] ==> t == content.value
    ensures content.None? || content.value == [] ==> t == NoResponse
  {
    if content.Some? && content.value != [] then content.value else NoResponse
  }

  /** The response to an admitted request, as the code builds it: any
      failure of the completion call, including a reply with no choice
      to read, becomes a 500 with a fixed message. */
  function Reply(completion: Completion, remaining: int): (r: Response)
    ensures r.setCookie.None?
    ensures r.status == 200 <==> completion.Choices? && |completion.contents| > 0
    ensures r.status == 200 ==>
      r.payload == Answer(ResponseText(completion.contents[0]), remaining) && r.payload.message != []
    ensures r.status != 200 ==> r == Response(500, Failed(GenerationFailed), None)
  {
    match completion
    case Threw => Response(500, Failed(GenerationFailed), None)
    case Choices(contents) =>
      if |contents| == 0 then Response(500, Failed(GenerationFailed), None)
      else Response(200, Answer(ResponseText(contents[0]), remaining), None)
  }

  /** The handler as written: the response that carries the updated
      ledger is built and then dropped, so no returned response sets a
      cookie. */
  function Respond(cookie: Cookie, now: int, completion: Completion): (r: Response)
    ensures r.setCookie.None?
    ensures cookie.Unparseable? ==> r == Response(500, Uncaught, None)
    ensures r.status == 429 <==>
      !cookie.Unparseable? && Evaluate(PriorState(cookie).value, now, Limit, TimeWindow).Reject?
    ensures r.status == 429 ==>
      r.payload == Throttled(TooManyRequests,
                             Evaluate(PriorState(cookie).value, now, Limit, TimeWindow).minutes)
    ensures r.status == 200 ==>
      && r.payload.Answer?
      && r.payload.message != []
      && r.payload.remainingRequests == Evaluate(PriorState(cookie).value, now, Limit, TimeWindow).remaining
    // an admitted request gets the completion's answer, or the fixed 500
    // when the completion fails
    ensures !cookie.Unparseable? && Evaluate(PriorState(cookie).value, now, Limit, TimeWindow).Accept? ==>
      r == Reply(completion, Evaluate(PriorState(cookie).value, now, Limit, TimeWindow).remaining)
  {
    match PriorState(cookie)
    case None => Response(500, Uncaught, None)
    case Some(prior) =>
      match Evaluate(prior, now, Limit, TimeWindow)
      case Reject(minutes) => Response(429, Throttled(TooManyRequests, minutes), None)
      case Accept(_, remaining) => Reply(completion, remaining)
  }

  /** The handler with the updated ledger attached to whatever it returns
      once the request is admitted, the answer and the 500 alike. */
  function RespondPersisting(cookie: Cookie, now: int, completion: Completion): (r: Response)
    ensures r.status == Respond(cookie, now, completion).status
    ensures r.payload == Respond(cookie, now, completion).payload
    ensures r.setCookie.Some? <==>
      !cookie.Unparseable? && Evaluate(PriorState(cookie).value, now, Limit, TimeWindow).Accept?
    ensures r.setCookie.Some? ==>
      r.setCookie.value == Evaluate(PriorState(cookie).value, now, Limit, TimeWindow).state
  {
    var r := Respond(cookie, now, completion);
    match PriorState(cookie)
    case None => r
    case Some(prior) =>
      match Evaluate(prior, now, Limit, TimeWindow)
      case Reject(_) => r
      case Accept(state, _) => r.(setCookie := Some(state))
  }

  /** The handler step by step, updating the ledger record in place. */
  method Post(cookie: Cookie, now: int, completion: Completion) returns (resp: Response)
    ensures resp == Respond(cookie, now, completion)
  {
    if cookie.Unparseable? {
      return Response(500, Uncaught, None);
    }
    var count, lastRequestTime := 0, 0;
    if cookie.Ledger? {
      count, lastRequestTime := cookie.state.count, cookie.state.lastRequestTime;
    }
    var timeSinceLastRequest := now - lastRequestTime;
    if timeSinceLastRequest > TimeWindow {
      count, lastRequestTime := 1, now;
    } else {
      count := count + 1;
    }
    if count > Limit {
      var timeUntilReset := TimeWindow - timeSinceLastRequest;
      return Response(429, Throttled(TooManyRequests, CeilMinutes(timeUntilReset)), None);
    }
    lastRequestTime := now;
    var remainingRequests := Limit - count;
    // the response carrying LedgerState(count, lastRequestTime) as a
    // cookie is built here and never returned
    resp := Reply(completion, remainingRequests);
  }

  /** One request of a caller: when it is made and what the completion
      service will do with it. */
  datatype Request = Request(now: int, completion: Completion)

  /** The caller's cookie after a response: replaced when the response
      sets one, otherwise kept. */
  function NextCookie(cookie: Cookie, r: Response): Cookie {
    if r.setCookie.Some? then Ledger(r.setCookie.value) else cookie
  }

  /** The responses a caller gets for a series of requests, keeping
      whatever cookie each response sets; `persist` picks the handler
      that attaches the ledger over the one as written. */
  function Session(cookie: Cookie, requests: seq<Request>, persist: bool): (rs: seq<Response>)
    ensures |rs| == |requests|
    decreases |requests|
  {
    if requests == [] then []
    else
      var r := if persist then RespondPersisting(cookie, requests[0].now, requests[0].completion)
               else Respond(cookie, requests[0].now, requests[0].completion);
      [r] + Session(NextCookie(cookie, r), requests[1..], persist)
  }

  /** As written, a caller who starts without a cookie is never refused,
      however many requests it makes and however close together: the
      ledger is never handed back to it. */
  lemma {:induction false} AsWrittenNeverThrottles(requests: seq<Request>)
    ensures forall i :: 0 <= i < |requests| ==> Session(NoCookie, requests, false)[i].status != 429
  {
    if requests != [] {
      var r := Respond(NoCookie, requests[0].now, requests[0].completion);
      assert NextCookie(NoCookie, r) == NoCookie;
      AsWrittenNeverThrottles(requests[1..]);
      forall i | 0 <= i < |requests|
        ensures Session(NoCookie, requests, false)[i].status != 429
      {
        if i > 0 {
          assert Session(NoCookie, requests, false)[i] == Session(NoCookie, requests[1..], false)[i - 1];
        }
      }
    }
  }

  /** With the ledger attached, a second request one second after an
      admitted first one is refused for 180 minutes. */
  lemma PersistingThrottlesSecondRequest(t: int, first: Completion, second: Completion)
    ensures Session(NoCookie, [Request(t, first), Request(t + 1000, second)], true)[1]
         == Response(429, Throttled(TooManyRequests, 180), None)
  {
  }

  /** With the ledger attached, any request admitted with a cookie it can
      read (and a count that is not negative) is followed, for the rest of
      the window, by refusals. */
  lemma PersistingThrottlesWithinWindow(cookie: Cookie, t: int, first: Completion, t2: int, second: Completion)
    requires cookie.NoCookie? || (cookie.Ledger? && cookie.state.count >= 0)
    requires RespondPersisting(cookie, t, first).setCookie.Some?
    requires t <= t2 <= t + TimeWindow
    ensures RespondPersisting(NextCookie(cookie, RespondPersisting(cookie, t, first)), t2, second).status == 429
  {
  }

  /** As written, the same two requests are both answered. */
  lemma AsWrittenAdmitsSecondRequest(t: int, first: Completion, second: Completion)
    ensures Session(NoCookie, [Request(t, first), Request(t + 1000, second)], false)[1].status != 429
  {
  }
}
