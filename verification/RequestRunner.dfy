/**
 * One chat request: redirects, the retry budget shared by every stage, the compatibility ladder, and the
 * events the caller sees. The network is any function from the number of a fetch to its answer, and the
 * request may be aborted at any time.
 */
module RequestRunner {
  import opened Common
  import opened EventStream

  const MAX_CHAT_REDIRECTS := 3
  const STREAM_MAX_TOKENS_FALLBACK := 8192

  predicate TransientStatus(status: nat) {
    status in {408, 409, 425, 429, 500, 502, 503, 504, 529}
  }

  predicate RedirectStatus(status: nat) {
    status in {301, 302, 303, 307, 308}
  }

  predicate Incompatible(status: nat) {
    status == 400 || status == 422
  }

  datatype Url = Url(origin: nat, path: string, credentials: bool)

  datatype Location = Missing | Invalid | To(url: Url)

  /** The first two arrive as an event stream, the others as a plain answer. */
  datatype Body =
    | NoStream
    | Stream(chunks: seq<string>, ending: Ending)
    | Unreadable
    | NotJson
    | Json(text: string, refusal: string, stopReason: Option<string>, usage: Option<UsagePatch>)

  datatype Response = Response(status: nat, location: Location, body: Body)

  datatype Answer = Unreachable | Answered(response: Response)

  datatype Protocol = Anthropic | OpenAiResponses | OpenAiChat

  datatype Attempt = Attempt(includeUsage: bool, maxTokens: Option<nat>, thinking: bool)

  function Ladder(protocol: Protocol): (attempts: seq<Attempt>)
    ensures 1 <= |attempts| <= 3
  {
    match protocol
    case Anthropic => [Attempt(true, None, true), Attempt(true, None, false),
                       Attempt(true, Some(STREAM_MAX_TOKENS_FALLBACK), false)]
    case OpenAiResponses => [Attempt(false, None, false)]
    case OpenAiChat => [Attempt(true, None, false), Attempt(false, None, false)]
  }

  /** What a rung gives up against the one above it. */
  predicate DropsThinking(above: Attempt, below: Attempt) {
    above.thinking && below == above.(thinking := false)
  }

  predicate DropsUsage(above: Attempt, below: Attempt) {
    above.includeUsage && below == above.(includeUsage := false)
  }

  predicate CapsTokens(above: Attempt, below: Attempt) {
    above.maxTokens.None? && below == above.(maxTokens := Some(STREAM_MAX_TOKENS_FALLBACK))
  }

  /**
   * The first rung asks for all that the protocol knows; each further one gives up exactly one thing, until there
   * is nothing left that a strict gateway is known to reject.
   */
  lemma LadderDrops(protocol: Protocol)
    ensures var rungs := Ladder(protocol);
            && rungs[0].maxTokens.None? && (rungs[0].thinking <==> protocol.Anthropic?)
            && (rungs[0].includeUsage <==> !protocol.OpenAiResponses?)
            && match protocol
               case Anthropic => |rungs| == 3 && DropsThinking(rungs[0], rungs[1]) && CapsTokens(rungs[1], rungs[2])
               case OpenAiResponses => |rungs| == 1
               case OpenAiChat => |rungs| == 2 && DropsUsage(rungs[0], rungs[1])
  {
  }

  /** How one provider request, redirects included, came back. */
  datatype FetchEnd = NetworkFailed | RedirectRefused | Got(response: Response)

  datatype Exchange = Exchange(rung: nat, end: FetchEnd)

  datatype Failure = Refused | NetworkDown | HttpError | Unusable | Cut(emittedOutput: bool) | WaitAborted

  datatype Fetched = Fetch(response: Response) | Threw(failure: Failure)

  /** What becomes of an accepted answer. */
  datatype Consumed = Over(failure: Option<Failure>) | Again(response: Response)

  datatype Retried = Denied | Waited | CutShort

  /** An event, with the exchange whose response it came from. */
  datatype Emission = Emission(event: ChatEvent, source: nat)

  /** A redirect that is followed: it keeps the method and stays on the origin, without credentials. */
  predicate Followable(a: Answer, origin: nat) {
    && a.Answered? && a.response.status in {307, 308}
    && a.response.location.To? && a.response.location.url.origin == origin
    && !a.response.location.url.credentials
  }

  predicate Accepted(e: Exchange) {
    e.end.Got? && 200 <= e.end.response.status <= 299
  }

  /** What one provider request makes of the last answer it fetched. */
  function EndOf(a: Answer): FetchEnd {
    if a.Unreachable? then NetworkFailed
    else if RedirectStatus(a.response.status) then RedirectRefused
    else Got(a.response)
  }

  predicate TransientEnd(end: FetchEnd) {
    end.NetworkFailed? || (end.Got? && TransientStatus(end.response.status))
  }

  /** The rungs are taken in order, one down exactly after an incompatibility. */
  ghost predicate DownTheLadder(exchanges: seq<Exchange>) {
    && (exchanges != [] ==> exchanges[0].rung == 0)
    && (forall i :: 0 <= i < |exchanges| - 1 ==>
          exchanges[i + 1].rung ==
          exchanges[i].rung + if exchanges[i].end.Got? && Incompatible(exchanges[i].end.response.status) then 1 else 0)
  }

  predicate EndsIncompatible(exchanges: seq<Exchange>) {
    && exchanges != [] && exchanges[|exchanges| - 1].end.Got?
    && Incompatible(exchanges[|exchanges| - 1].end.response.status)
  }

  predicate AcceptedAbove(exchanges: seq<Exchange>, rung: nat) {
    exists i :: 0 <= i < |exchanges| && Accepted(exchanges[i]) && exchanges[i].rung < rung
  }

  ghost predicate Silent(emitted: seq<Emission>) {
    forall i :: 0 <= i < |emitted| ==> !IsOutput(emitted[i].event) && !IsTerminal(emitted[i].event)
  }

  /** What a 2xx response makes the caller see, and how reading it ends. */
  function Shown(body: Body, parse: string -> Record): (seq<ChatEvent>, Option<Failure>) {
    match body
    case NoStream => ([], Some(Cut(false)))
    case Stream(chunks, ending) =>
      var p := Reference(TextOf(chunks, ending), ending.Closed?, parse);
      if p.At? then (p.state.events + [Done(p.state.stopReason, p.state.usage)], None)
      else if p.error.Incomplete? then (p.state.events, Some(Cut(p.error.emittedOutput)))
      else (p.state.events, Some(Unusable))
    case Unreadable => ([], Some(Cut(false)))
    case NotJson => ([], Some(Unusable))
    case Json(text, refusal, stopReason, usage) =>
      if text == "" && refusal == "" then ([], Some(Unusable)) else
        var total := MergeUsage(None, usage);
        (When(text != "", TextDelta(text, total))
         + When(refusal != "", Refusal(refusal, if stopReason.Some? then stopReason.value else "refusal"))
         + [Done(stopReason, total)], None)
  }

  function Tagged(events: seq<ChatEvent>, source: nat): (r: seq<Emission>)
    ensures |r| == |events|
    ensures forall i :: 0 <= i < |r| ==> r[i] == Emission(events[i], source)
  {
    seq(|events|, i requires 0 <= i < |events| => Emission(events[i], source))
  }

  class ChatRequest {
    const network: nat -> Answer
    const parse: string -> Record
    const endpoint: Url
    const protocol: Protocol
    const maxTransientRetries: nat
    /** The reading of the clock at which the request is stopped, if it is. */
    const abortAt: Option<nat>
    var clock: nat
    var fetches: nat
    var transientRetries: nat
    var exchanges: seq<Exchange>
    var emitted: seq<Emission>

    constructor (network: nat -> Answer, parse: string -> Record, endpoint: Url, protocol: Protocol,
                 maxTransientRetries: nat, abortAt: Option<nat>)
      ensures this.network == network && this.parse == parse && this.endpoint == endpoint
      ensures this.protocol == protocol && this.maxTransientRetries == maxTransientRetries && this.abortAt == abortAt
      ensures fetches == 0 && transientRetries == 0 && exchanges == [] && emitted == []
    {
      this.network, this.parse, this.endpoint, this.protocol := network, parse, endpoint, protocol;
      this.maxTransientRetries, this.abortAt := maxTransientRetries, abortAt;
      clock, fetches, transientRetries, exchanges, emitted := 0, 0, 0, [], [];
    }

    predicate IsAborted()
      reads this`clock
    {
      abortAt.Some? && abortAt.value <= clock
    }

    /** What one provider request comes to if its next fetch is the n-th, and the number of the fetch behind it. */
    function Followed(n: nat, redirects: nat): (FetchEnd, nat)
      requires redirects <= MAX_CHAT_REDIRECTS
      decreases MAX_CHAT_REDIRECTS - redirects
    {
      if redirects < MAX_CHAT_REDIRECTS && Followable(network(n), endpoint.origin) then Followed(n + 1, redirects + 1)
      else (EndOf(network(n)), n + 1)
    }

    /** How many fetches the first i provider requests take; the network alone decides it. */
    function Spent(i: nat): nat {
      if i == 0 then 0 else Followed(Spent(i - 1), 0).1
    }

    /** What the network makes of the i-th provider request, whatever its rung. */
    function Reply(i: nat): FetchEnd {
      Followed(Spent(i), 0).0
    }

    lemma OneMoreReply(i: nat)
      ensures (Reply(i), Spent(i + 1)) == Followed(Spent(i), 0)
    {
    }

    /** Within the budgets, as the network answers, and consistent with the ladder. */
    ghost predicate Consistent(fetched: nat, exchanged: seq<Exchange>, retried: nat) {
      && retried <= maxTransientRetries
      && DownTheLadder(exchanged)
      && (forall i :: 0 <= i < |exchanged| ==> exchanged[i].rung < |Ladder(protocol)|)
      && fetched == Spent(|exchanged|) <= (MAX_CHAT_REDIRECTS + 1) * |exchanged|
      && (forall i :: 0 <= i < |exchanged| ==> exchanged[i].end == Reply(i))
      && |exchanged| <= (if exchanged == [] then 0 else 1 + exchanged[|exchanged| - 1].rung) + retried
    }

    ghost predicate Valid()
      reads this`fetches, this`exchanges, this`transientRetries
    {
      Consistent(fetches, exchanges, transientRetries)
    }

    lemma LadderKeeps(exchanged: seq<Exchange>, retried: nat, rung: nat, end: FetchEnd)
      requires DownTheLadder(exchanged) && Fits(exchanged, retried, rung)
      ensures DownTheLadder(exchanged + [Exchange(rung, end)])
    {
      hide Ladder;
      hide Incompatible;
    }

    lemma ExchangeKeeps(fetched: nat, exchanged: seq<Exchange>, retried: nat, rung: nat, end: FetchEnd, after: nat)
      requires Consistent(fetched, exchanged, retried) && Fits(exchanged, retried, rung)
      requires (end, after) == Followed(fetched, 0) && after <= fetched + MAX_CHAT_REDIRECTS + 1
      ensures Consistent(after, exchanged + [Exchange(rung, end)], retried)
    {
      OneMoreReply(|exchanged|);
      LadderKeeps(exchanged, retried, rung, end);
      var longer, top := exchanged + [Exchange(rung, end)], |Ladder(protocol)|;
      hide DownTheLadder;
      hide Incompatible;
      hide Spent;
      hide Reply;
      hide Followed;
      hide Ladder;
      assert longer[|exchanged|] == Exchange(rung, end) && |longer| == |exchanged| + 1;
      forall i | 0 <= i < |longer| ensures longer[i].rung < top && longer[i].end == Reply(i) {
        assert i < |exchanged| ==> longer[i] == exchanged[i];
      }
    }

    lemma WithinBudgets()
      requires Valid()
      ensures |exchanges| <= |Ladder(protocol)| + maxTransientRetries && transientRetries <= maxTransientRetries
      ensures fetches <= (MAX_CHAT_REDIRECTS + 1) * |exchanges|
      ensures DownTheLadder(exchanges) && forall i :: 0 <= i < |exchanges| ==> exchanges[i].end == Reply(i)
    {
      hide Spent;
      hide Reply;
      hide Ladder;
    }

    /** Every provider request but the first was sent a rung further down or for one unit of the budget. */
    ghost predicate Settled()
      reads this`exchanges, this`transientRetries
    {
      exchanges != [] && |exchanges| == 1 + exchanges[|exchanges| - 1].rung + transientRetries
    }

    /** fetchWithRedirectPolicy */
    method FetchWithRedirectPolicy() returns (end: FetchEnd)
      modifies this`fetches, this`clock
      ensures old(fetches) < fetches <= old(fetches) + MAX_CHAT_REDIRECTS + 1
      ensures (end, fetches) == Followed(old(fetches), 0) && end == EndOf(network(fetches - 1))
      ensures forall k :: old(fetches) <= k < fetches - 1 ==> Followable(network(k), endpoint.origin)
      ensures forall k :: old(fetches) <= k < fetches - 1 ==>
                && network(k).Answered? && network(k).response.status in {307, 308}
                && network(k).response.location.To? && !network(k).response.location.url.credentials
                && network(k).response.location.url.origin == endpoint.origin
      ensures Followable(network(fetches - 1), endpoint.origin) ==> fetches == old(fetches) + MAX_CHAT_REDIRECTS + 1
    {
      var currentUrl := endpoint;
      var redirectCount := 0;
      while true
        invariant 0 <= redirectCount <= MAX_CHAT_REDIRECTS && fetches == old(fetches) + redirectCount
        invariant currentUrl.origin == endpoint.origin
        invariant Followed(old(fetches), 0) == Followed(fetches, redirectCount)
        invariant forall k :: old(fetches) <= k < fetches ==> Followable(network(k), endpoint.origin)
        decreases MAX_CHAT_REDIRECTS - redirectCount
      {
        var answer := network(fetches);
        fetches, clock := fetches + 1, clock + 1;
        if answer.Unreachable? {
          return NetworkFailed;
        }
        var response := answer.response;
        if !RedirectStatus(response.status) {
          return Got(response);
        }
        if response.location.Missing? || response.location.Invalid? {
          return RedirectRefused;
        }
        var target := response.location.url;
        if response.status != 307 && response.status != 308 {
          return RedirectRefused;
        }
        if target.origin != currentUrl.origin || target.credentials {
          return RedirectRefused;
        }
        if redirectCount >= MAX_CHAT_REDIRECTS {
          return RedirectRefused;
        }
        currentUrl := target;
        redirectCount := redirectCount + 1;
      }
    }

    /** Spends one unit of the shared budget, if there is one left, and waits. */
    method Retry() returns (r: Retried)
      modifies this`clock, this`transientRetries, this`emitted
      ensures r.Denied? <==> old(transientRetries) >= maxTransientRetries
      ensures r.Denied? ==> transientRetries == old(transientRetries) && emitted == old(emitted)
      ensures !r.Denied? ==>
                && transientRetries == old(transientRetries) + 1
                && emitted == old(emitted)
                   + [Emission(Retrying(transientRetries + 1, maxTransientRetries + 1), |exchanges|)]
      ensures r.CutShort? ==> IsAborted()
      ensures old(Valid()) ==> Valid()
    {
      if transientRetries >= maxTransientRetries {
        return Denied;
      }
      transientRetries := transientRetries + 1;
      emitted := emitted + [Emission(Retrying(transientRetries + 1, maxTransientRetries + 1), |exchanges|)];
      clock := clock + 1;
      if IsAborted() {
        return CutShort;
      }
      return Waited;
    }

    /** A request may be sent from rung `rung` now: it is the first, or what the last exchange calls for. */
    ghost predicate Fits(exchanged: seq<Exchange>, retried: nat, rung: nat) {
      && rung < |Ladder(protocol)|
      && (exchanged == [] ==> rung == 0)
      && (exchanged != [] ==>
            var last := exchanged[|exchanged| - 1];
            rung == last.rung + if last.end.Got? && Incompatible(last.end.response.status) then 1 else 0)
      && |exchanged| == rung + retried
    }

    ghost predicate MaySend(rung: nat)
      reads this`exchanges, this`transientRetries
    {
      Fits(exchanges, transientRetries, rung)
    }

    /** One provider request, recorded. */
    method Send(rung: nat) returns (end: FetchEnd)
      requires Valid() && MaySend(rung)
      modifies this`fetches, this`clock, this`exchanges
      ensures Valid() && exchanges == old(exchanges) + [Exchange(rung, end)]
    {
      hide Consistent;
      hide Followed;
      hide Fits;
      end := FetchWithRedirectPolicy();
      ExchangeKeeps(old(fetches), exchanges, transientRetries, rung, end, fetches);
      exchanges := exchanges + [Exchange(rung, end)];
    }

    /** One turn of fetchResilient: a request, and the decision whether to send it again. */
    method FetchOnce(rung: nat) returns (r: Option<Fetched>, end: FetchEnd)
      requires Valid() && MaySend(rung) && Silent(emitted)
      modifies this`fetches, this`clock, this`exchanges, this`transientRetries, this`emitted
      ensures Valid() && Silent(emitted) && exchanges == old(exchanges) + [Exchange(rung, end)]
      ensures transientRetries >= old(transientRetries)
      ensures r.None? ==> TransientEnd(end) && MaySend(rung) && transientRetries > old(transientRetries)
      ensures r.Some? && r.value.Fetch? ==>
                && end == Got(r.value.response)
                && (TransientEnd(end) ==> transientRetries == maxTransientRetries)
      ensures r.Some? && r.value.Threw? ==> !r.value.failure.Cut?
      ensures r.Some? && (r.value.Fetch? || !IsAborted()) ==> Settled()
      ensures r.Some? && r.value.Threw? && !IsAborted() ==>
                && r.value.failure == (if end.RedirectRefused? then Refused else NetworkDown)
                && !end.Got?
                && (end.NetworkFailed? ==> transientRetries == maxTransientRetries)
    {
      end := Send(rung);
      match end
      case RedirectRefused =>
        return Some(Threw(Refused)), end;
      case NetworkFailed =>
        if IsAborted() {
          return Some(Threw(NetworkDown)), end;
        }
        var retried := Retry();
        if retried.Denied? {
          return Some(Threw(NetworkDown)), end;
        }
        return if retried.CutShort? then Some(Threw(WaitAborted)) else None, end;
      case Got(response) =>
        if !TransientStatus(response.status) {
          return Some(Fetch(response)), end;
        }
        if transientRetries >= maxTransientRetries {
          return Some(Fetch(response)), end;
        }
        var retried := Retry();
        return if retried.CutShort? then Some(Threw(WaitAborted)) else None, end;
    }

    /** fetchResilient: retries what is transient while the budget lasts. */
    method FetchResilient(rung: nat) returns (r: Fetched)
      requires Valid() && MaySend(rung) && Silent(emitted)
      modifies this`fetches, this`clock, this`exchanges, this`transientRetries, this`emitted
      ensures Valid() && Silent(emitted)
      ensures |exchanges| > |old(exchanges)| && old(exchanges) <= exchanges
      ensures transientRetries >= old(transientRetries)
      ensures forall i :: |old(exchanges)| <= i < |exchanges| ==> exchanges[i].rung == rung
      ensures forall i :: |old(exchanges)| <= i < |exchanges| - 1 ==> TransientEnd(exchanges[i].end)
      ensures r.Fetch? ==>
                && exchanges[|exchanges| - 1].end == Got(r.response)
                && (TransientStatus(r.response.status) ==> transientRetries == maxTransientRetries)
      ensures r.Threw? && !IsAborted() ==>
                && !exchanges[|exchanges| - 1].end.Got?
                && r.failure == (if exchanges[|exchanges| - 1].end.RedirectRefused? then Refused else NetworkDown)
                && (r.failure.NetworkDown? ==> transientRetries == maxTransientRetries)
      ensures r.Threw? ==> !r.failure.Cut?
      ensures r.Fetch? || !IsAborted() ==> Settled()
    {
      while true
        invariant Valid() && MaySend(rung) && Silent(emitted)
        invariant old(exchanges) <= exchanges && transientRetries >= old(transientRetries)
        invariant forall i :: |old(exchanges)| <= i < |exchanges| ==>
                    exchanges[i].rung == rung && TransientEnd(exchanges[i].end)
        decreases maxTransientRetries - transientRetries
      {
        var fetched, end := FetchOnce(rung);
        if fetched.Some? {
          return fetched.value;
        }
      }
    }

    /** selectCompatibleResponse: down the ladder while the provider calls the request invalid. */
    method SelectCompatibleResponse() returns (r: Fetched, rung: nat)
      requires Valid() && exchanges == [] && transientRetries == 0 && Silent(emitted)
      modifies this`fetches, this`clock, this`exchanges, this`transientRetries, this`emitted
      ensures Valid() && Silent(emitted) && exchanges != []
      ensures exchanges[|exchanges| - 1].rung == rung
      ensures r.Fetch? ==> exchanges[|exchanges| - 1].end == Got(r.response)
      ensures r.Fetch? && Incompatible(r.response.status) ==> rung == |Ladder(protocol)| - 1
      ensures r.Fetch? && TransientStatus(r.response.status) ==> transientRetries == maxTransientRetries
      ensures r.Threw? ==> !r.failure.Cut?
      ensures r.Threw? && !IsAborted() ==> Exhausted(r.failure)
      ensures r.Fetch? || !IsAborted() ==> Settled()
      ensures SameRung(rung)
    {
      hide Consistent;
      hide Silent;
      hide Reply;
      hide Shown;
      rung := 0;
      r := FetchResilient(0);
      while r.Fetch? && rung + 1 < |Ladder(protocol)| && Incompatible(r.response.status)
        invariant Valid() && Silent(emitted) && exchanges != [] && rung < |Ladder(protocol)|
        invariant exchanges[|exchanges| - 1].rung == rung
        invariant r.Fetch? ==> exchanges[|exchanges| - 1].end == Got(r.response)
        invariant r.Fetch? && TransientStatus(r.response.status) ==> transientRetries == maxTransientRetries
        invariant r.Threw? ==> !r.failure.Cut?
        invariant r.Threw? && !IsAborted() ==> Exhausted(r.failure)
        invariant r.Fetch? || !IsAborted() ==> Settled()
        invariant forall i :: 0 <= i < |exchanges| - 1 ==> !Accepted(exchanges[i])
        decreases |Ladder(protocol)| - rung
      {
        rung := rung + 1;
        r := FetchResilient(rung);
      }
    }

    /** consumeDirectResponse, once the answer is parsed. */
    method ConsumeJson(text: string, refusal: string, stopReason: Option<string>, usage: Option<UsagePatch>)
      returns (failure: Option<Failure>)
      requires exchanges != []
      modifies this`emitted
      ensures failure == Shown(Json(text, refusal, stopReason, usage), parse).1
      ensures emitted == old(emitted) + Tagged(Shown(Json(text, refusal, stopReason, usage), parse).0, |exchanges| - 1)
    {
      var source := |exchanges| - 1;
      if text == "" && refusal == "" {
        return Some(Unusable);
      }
      var total := MergeUsage(None, usage);
      if text != "" {
        emitted := emitted + [Emission(TextDelta(text, total), source)];
      }
      if refusal != "" {
        var reason := if stopReason.Some? then stopReason.value else "refusal";
        emitted := emitted + [Emission(Refusal(refusal, reason), source)];
      }
      emitted := emitted + [Emission(Done(stopReason, total), source)];
      failure := None;
    }

    /** consumeEventStream, with its closing done event. */
    method ConsumeStream(chunks: seq<string>, ending: Ending) returns (failure: Option<Failure>)
      requires exchanges != []
      modifies this`emitted
      ensures failure == Shown(Stream(chunks, ending), parse).1
      ensures emitted == old(emitted) + Tagged(Shown(Stream(chunks, ending), parse).0, |exchanges| - 1)
    {
      hide Reference;
      var source := |exchanges| - 1;
      var p := ConsumeEventStream(chunks, ending, parse);
      emitted := emitted + Tagged(p.state.events, source);
      if p.Thrown? {
        return Some(if p.error.Incomplete? then Cut(p.error.emittedOutput) else Unusable);
      }
      emitted := emitted + [Emission(Done(p.state.stopReason, p.state.usage), source)];
      failure := None;
    }

    /** What the body makes the caller see. */
    method ConsumeBody(body: Body) returns (failure: Option<Failure>)
      requires exchanges != []
      modifies this`emitted, this`clock
      ensures failure == Shown(body, parse).1
      ensures emitted == old(emitted) + Tagged(Shown(body, parse).0, |exchanges| - 1)
    {
      clock := clock + 1;
      match body
      case NoStream => failure := Some(Cut(false));
      case Stream(chunks, ending) => failure := ConsumeStream(chunks, ending);
      case Unreadable => failure := Some(Cut(false));
      case NotJson => failure := Some(Unusable);
      case Json(text, refusal, stopReason, usage) =>
        failure := ConsumeJson(text, refusal, stopReason, usage);
    }

    /** The request was silent before; then it showed what the last response shows. */
    ghost predicate ShowsLastResponse(before: seq<Emission>, failure: Option<Failure>)
      reads this`exchanges, this`emitted
    {
      && Silent(before)
      && exchanges != [] && Accepted(exchanges[|exchanges| - 1])
      && var body := exchanges[|exchanges| - 1].end.response.body;
         && emitted == before + Tagged(Shown(body, parse).0, |exchanges| - 1)
         && failure == Shown(body, parse).1
    }

    /** There is nothing left to try: the error is final, or the budget or the ladder is used up. */
    ghost predicate Exhausted(failure: Failure)
      reads this`exchanges, this`transientRetries
    {
      exchanges != [] &&
      var last := exchanges[|exchanges| - 1];
      match last.end
      case RedirectRefused => failure == Refused
      case NetworkFailed => failure == NetworkDown && transientRetries == maxTransientRetries
      case Got(response) =>
        if 200 <= response.status <= 299 then
          && Some(failure) == Shown(response.body, parse).1
          && (failure == Cut(false) ==> transientRetries == maxTransientRetries)
        else
          && failure == HttpError
          && (TransientStatus(response.status) ==> transientRetries == maxTransientRetries)
          && (Incompatible(response.status) ==> LadderIsDone(last.rung))
    }

    /** Whatever was accepted was asked for on this rung. */
    ghost predicate SameRung(rung: nat)
      reads this`exchanges
    {
      forall i :: 0 <= i < |exchanges| && Accepted(exchanges[i]) ==> exchanges[i].rung == rung
    }

    /** The last rung is reached, or this rung was accepted before: the ladder is not resumed after that. */
    ghost predicate LadderIsDone(rung: nat)
      reads this`exchanges
    {
      rung == |Ladder(protocol)| - 1
      || exists i :: 0 <= i < |exchanges| && Accepted(exchanges[i]) && exchanges[i].rung == rung
    }

    ghost predicate LastIs(rung: nat, response: Response)
      reads this`exchanges
    {
      exchanges != [] && exchanges[|exchanges| - 1] == Exchange(rung, Got(response))
    }

    /** The last exchange was on this rung, and so was whatever was accepted. */
    ghost predicate OnRung(rung: nat)
      reads this`exchanges
    {
      exchanges != [] && exchanges[|exchanges| - 1].rung == rung && SameRung(rung)
    }

    /** After an accepted answer that was cut: the same rung again, if the budget still lasts. */
    method AskAgain(rung: nat) returns (r: Option<Fetched>)
      requires Valid() && Silent(emitted) && Settled() && OnRung(rung) && rung < |Ladder(protocol)|
      requires Accepted(exchanges[|exchanges| - 1])
      modifies this`fetches, this`clock, this`exchanges, this`transientRetries, this`emitted
      ensures r.None? ==> emitted == old(emitted) && exchanges == old(exchanges)
      ensures r.None? ==> transientRetries == old(transientRetries) >= maxTransientRetries
      ensures r.Some? ==> Silent(emitted) && old(transientRetries) < transientRetries <= maxTransientRetries
      ensures Valid() && OnRung(rung) && LadderIsDone(rung)
      ensures r.Some? && r.value.Fetch? ==>
                && LastIs(rung, r.value.response)
                && (TransientStatus(r.value.response.status) ==> transientRetries == maxTransientRetries)
      ensures r.Some? && r.value.Threw? ==> !r.value.failure.Cut?
      ensures r.Some? && r.value.Threw? && !IsAborted() ==> Exhausted(r.value.failure)
      ensures r.None? || r.value.Fetch? || !IsAborted() ==> Settled()
    {
      hide Consistent;
      hide Shown;
      hide Reply;
      hide Ladder;
      ghost var accepted := |exchanges| - 1;
      var retried := Retry();
      if retried.Denied? {
        return None;
      }
      if retried.CutShort? {
        WithinBudgets();
        return Some(Threw(WaitAborted));
      }
      var fetched := FetchResilient(rung);
      assert exchanges[accepted] == old(exchanges)[accepted];
      WithinBudgets();
      return Some(fetched);
    }

    lemma LastShows(before: seq<Emission>, failure: Option<Failure>, rung: nat, response: Response)
      requires Silent(before) && LastIs(rung, response) && 200 <= response.status <= 299
      requires emitted == before + Tagged(Shown(response.body, parse).0, |exchanges| - 1)
      requires failure == Shown(response.body, parse).1
      ensures ShowsLastResponse(before, failure) && Accepted(exchanges[|exchanges| - 1])
    {
    }

    lemma CutIsSilent(before: seq<Emission>)
      requires ShowsLastResponse(before, Some(Cut(false)))
      ensures Silent(emitted)
    {
      var body := exchanges[|exchanges| - 1].end.response.body;
      ShownEnds(body, parse);
      StillSilent(before, Shown(body, parse).0, |exchanges| - 1);
    }

    lemma LastIsExhausted(before: seq<Emission>, failure: Failure)
      requires ShowsLastResponse(before, Some(failure))
      requires failure == Cut(false) ==> transientRetries == maxTransientRetries
      ensures Exhausted(failure)
    {
      hide Shown;
    }

    lemma RefusalIsExhausted(rung: nat, response: Response)
      requires LastIs(rung, response) && !(200 <= response.status <= 299)
      requires Incompatible(response.status) ==> LadderIsDone(rung)
      requires TransientStatus(response.status) ==> transientRetries == maxTransientRetries
      ensures Exhausted(HttpError)
    {
    }

    /** One accepted answer: it ends the request, or is asked for again because nothing of it was shown. */
    method ConsumeAccepted(response: Response, rung: nat) returns (r: Consumed, ghost before: seq<Emission>)
      requires Valid() && Silent(emitted) && Settled() && OnRung(rung) && rung < |Ladder(protocol)|
      requires LastIs(rung, response)
      requires 200 <= response.status <= 299
      modifies this`fetches, this`clock, this`exchanges, this`transientRetries, this`emitted
      ensures Valid() && OnRung(rung)
      ensures r.Over? ==> ShowsLastResponse(before, r.failure)
                          || (Silent(emitted) && r.failure.Some? && r.failure != Some(Cut(true)))
      ensures r.Over? && r.failure.Some? && !IsAborted() ==> Exhausted(r.failure.value)
      ensures r.Again? || r.failure.None? || !IsAborted() ==> Settled()
      ensures r.Again? ==>
                && Silent(emitted) && LastIs(rung, r.response) && LadderIsDone(rung)
                && (TransientStatus(r.response.status) ==> transientRetries == maxTransientRetries)
                && old(transientRetries) < transientRetries <= maxTransientRetries
    {
      assert exchanges != [] && transientRetries <= maxTransientRetries;
      hide *;
      before := emitted;
      var failure := ConsumeBody(response.body);
      LastShows(before, failure, rung, response);
      if failure.None? || IsAborted() || failure != Some(Cut(false)) {
        if failure.Some? && !IsAborted() {
          LastIsExhausted(before, failure.value);
        }
        return Over(failure), before;
      }
      CutIsSilent(before);
      var again := AskAgain(rung);
      if again.None? {
        LastIsExhausted(before, failure.value);
        return Over(failure), before;
      }
      if again.value.Threw? {
        return Over(Some(again.value.failure)), before;
      }
      return Again(again.value.response), before;
    }

    /** consumeProviderResponse: asks again only while nothing of the answer was shown. */
    method ConsumeProviderResponse(first: Response, rung: nat)
      returns (failure: Option<Failure>, ghost before: seq<Emission>)
      requires Valid() && Silent(emitted) && Settled() && OnRung(rung) && LastIs(rung, first)
      requires Incompatible(first.status) ==> LadderIsDone(rung)
      requires TransientStatus(first.status) ==> transientRetries == maxTransientRetries
      modifies this`fetches, this`clock, this`exchanges, this`transientRetries, this`emitted
      ensures Valid()
      ensures ShowsLastResponse(before, failure)
              || (Silent(emitted) && failure.Some? && failure != Some(Cut(true)))
      ensures failure.Some? && !IsAborted() ==> Exhausted(failure.value)
      ensures failure.None? || !IsAborted() ==> Settled()
      ensures OnRung(rung)
    {
      assert rung < |Ladder(protocol)| && transientRetries <= maxTransientRetries;
      hide *;
      var response := first;
      while true
        invariant Valid() && Silent(emitted) && Settled() && OnRung(rung) && LastIs(rung, response)
        invariant Incompatible(response.status) ==> LadderIsDone(rung)
        invariant TransientStatus(response.status) ==> transientRetries == maxTransientRetries
        invariant transientRetries <= maxTransientRetries
        decreases maxTransientRetries - transientRetries
      {
        if !(200 <= response.status <= 299) {
          RefusalIsExhausted(rung, response);
          return Some(HttpError), emitted;
        }
        var consumed;
        consumed, before := ConsumeAccepted(response, rung);
        if consumed.Over? {
          return consumed.failure, before;
        }
        response := consumed.response;
      }
    }

    /** executeRequest */
    method ExecuteRequest() returns (failure: Option<Failure>, ghost before: seq<Emission>, ghost rung: nat)
      requires Valid() && exchanges == [] && transientRetries == 0 && emitted == []
      modifies this`fetches, this`clock, this`exchanges, this`transientRetries, this`emitted
      ensures Valid()
      ensures ShowsLastResponse(before, failure)
              || (Silent(emitted) && failure.Some? && failure != Some(Cut(true)))
      ensures failure.Some? && !IsAborted() ==> Exhausted(failure.value)
      ensures failure.None? || !IsAborted() ==> Settled()
      ensures exchanges != [] ==> OnRung(rung)
    {
      hide Consistent;
      hide Exhausted;
      hide Shown;
      hide Tagged;
      before, rung := [], 0;
      clock := clock + 1;
      if IsAborted() {
        return Some(WaitAborted), [], 0;
      }
      var selected, attempt := SelectCompatibleResponse();
      rung := attempt;
      if selected.Threw? {
        return Some(selected.failure), [], rung;
      }
      failure, before := ConsumeProviderResponse(selected.response, attempt);
    }

    /** An answer that calls the request invalid ends it above the last rung if and only if one was accepted there. */
    ghost predicate LadderLeftExactly()
      reads this`exchanges
    {
      EndsIncompatible(exchanges) ==>
        (exchanges[|exchanges| - 1].rung < |Ladder(protocol)| - 1
         <==> AcceptedAbove(exchanges, |Ladder(protocol)| - 1))
    }

    lemma LadderLeft(failure: Option<Failure>, rung: nat)
      requires Valid() && OnRung(rung)
      requires if failure.Some? then Exhausted(failure.value) else Accepted(exchanges[|exchanges| - 1])
      ensures LadderLeftExactly()
    {
      hide Ladder;
      hide Shown;
      hide Reply;
      hide Spent;
    }

    lemma LastIsShown(before: seq<Emission>, failure: Option<Failure>)
      requires ShowsLastResponse(before, failure)
      ensures ShownFrom(emitted, failure, |exchanges| - 1)
      ensures exchanges != [] && Accepted(exchanges[|exchanges| - 1])
    {
      ShownOnce(before, exchanges[|exchanges| - 1].end.response.body, parse, |exchanges| - 1);
      hide ShownFrom;
      hide Shown;
    }

    /** The same, and what follows for the budgets, the ladder and what was shown. */
    method ExecuteWithin() returns (failure: Option<Failure>, ghost before: seq<Emission>)
      requires fetches == 0 && transientRetries == 0 && exchanges == [] && emitted == []
      modifies this`fetches, this`clock, this`exchanges, this`transientRetries, this`emitted
      ensures |exchanges| <= |Ladder(protocol)| + maxTransientRetries
      ensures fetches <= (MAX_CHAT_REDIRECTS + 1) * |exchanges|
      ensures transientRetries <= maxTransientRetries && DownTheLadder(exchanges)
      ensures forall i :: 0 <= i < |exchanges| ==> exchanges[i].end == Reply(i)
      ensures !IsAborted() ==> Settled() && LadderLeftExactly()
      ensures ShownFrom(emitted, failure, |exchanges| - 1)
      ensures failure.None? ==> ShowsLastResponse(before, None)
      ensures failure.Some? && !IsAborted() ==> Exhausted(failure.value)
    {
      hide Shown;
      hide Tagged;
      hide Silent;
      hide ShownFrom;
      hide Exhausted;
      assert Valid();
      hide Consistent;
      hide DownTheLadder;
      hide Reply;
      hide Ladder;
      hide LadderLeftExactly;
      hide SameRung;
      hide Settled;
      hide Accepted;
      hide ShowsLastResponse;
      ghost var rung;
      failure, before, rung := ExecuteRequest();
      WithinBudgets();
      if ShowsLastResponse(before, failure) {
        LastIsShown(before, failure);
      } else {
        SilentIsShown(emitted, failure.value, |exchanges| - 1);
      }
      if !IsAborted() {
        LadderLeft(failure, rung);
      }
    }

    /** The one terminal event of a request that did not get its answer. */
    method ReportFailure(failure: Failure)
      requires ShownFrom(emitted, Some(failure), |exchanges| - 1)
      modifies this`emitted
      ensures emitted != [] && EndsOnce(emitted, |exchanges| - 1)
      ensures !emitted[|emitted| - 1].event.Done? && (emitted[|emitted| - 1].event.Aborted? <==> IsAborted())
      ensures emitted[|emitted| - 1].event.Error? ==>
                (emitted[|emitted| - 1].event.continuable <==> failure == Cut(true))
      ensures emitted[..|emitted| - 1] == old(emitted)
    {
      var last := if IsAborted() then Aborted else Error(failure == Cut(true));
      emitted := emitted + [Emission(last, |exchanges|)];
    }

    /**
     * One whole request. It stays within the budgets, everything visible comes from the one response read
     * last, and exactly one terminal event is emitted, after everything else.
     */
    method Run() returns (ghost before: seq<Emission>, ghost failed: Option<Failure>)
      requires fetches == 0 && transientRetries == 0 && exchanges == [] && emitted == []
      modifies this
      ensures |exchanges| <= |Ladder(protocol)| + maxTransientRetries
      ensures fetches <= (MAX_CHAT_REDIRECTS + 1) * |exchanges|
      ensures transientRetries <= maxTransientRetries && DownTheLadder(exchanges)
      ensures forall i :: 0 <= i < |exchanges| ==> exchanges[i].end == Reply(i)
      ensures !IsAborted() ==> Settled()
      ensures !IsAborted() ==> LadderLeftExactly()
      ensures emitted != [] && EndsOnce(emitted, |exchanges| - 1)
      ensures emitted[|emitted| - 1].event.Done? <==> failed.None?
      ensures failed.None? ==> ShowsLastResponse(before, None)
      ensures emitted[|emitted| - 1].event.Aborted? ==> IsAborted()
      ensures emitted[|emitted| - 1].event.Error? ==>
                && !IsAborted()
                && Exhausted(failed.value)
                && (emitted[|emitted| - 1].event.continuable <==> failed == Some(Cut(true)))
                && (emitted[|emitted| - 1].event.continuable ==> HasOutput(emitted[..|emitted| - 1]))
    {
      hide ShownFrom;
      hide EndsOnce;
      hide Exhausted;
      hide ShowsLastResponse;
      hide LadderLeftExactly;
      hide DownTheLadder;
      hide Reply;
      hide Ladder;
      var failure;
      failure, before := ExecuteWithin();
      failed := failure;
      if failure.Some? {
        ReportFailure(failure.value);
        ShownOutput(emitted[..|emitted| - 1], failure.value, |exchanges| - 1);
      } else {
        DoneEndsOnce(emitted, |exchanges| - 1);
      }
    }
  }

  function CutThenIncompatible(n: nat): Answer {
    Answered(if n == 0 then Response(200, Missing, NoStream) else Response(400, Missing, NotJson))
  }

  /**
   * An event stream that ends before its first event, then an answer that calls the request invalid: the request
   * fails although its second rung was never asked for.
   */
  method RequestThatLeavesTheLadder(parse: string -> Record, endpoint: Url) returns (request: ChatRequest)
    ensures request.protocol == OpenAiChat && request.network == CutThenIncompatible
    ensures request.emitted != [] && request.emitted[|request.emitted| - 1].event == Error(false)
    ensures |request.exchanges| == 2 && EndsIncompatible(request.exchanges)
    ensures request.exchanges[1].rung == 0 < |Ladder(request.protocol)| - 1
  {
    request := new ChatRequest(CutThenIncompatible, parse, endpoint, OpenAiChat, 1, None);
    ghost var before, failed := request.Run();
    FirstReplies(request);
    SecondRungIsNotAsked(request, before, failed);
  }

  /** Where such a request can end: behind the incompatible answer, or one rung further down behind the next. */
  lemma EndsOfCut(exchanges: seq<Exchange>)
    requires DownTheLadder(exchanges) && 2 <= |exchanges| <= 3
    requires exchanges[0].end == Got(Response(200, Missing, NoStream))
    requires forall i :: 1 <= i < |exchanges| ==> exchanges[i].end == Got(Response(400, Missing, NotJson))
    ensures EndsIncompatible(exchanges) && exchanges[1].rung == 0 && AcceptedAbove(exchanges, 1)
    ensures |exchanges| == 3 ==> exchanges[2].rung == 1
  {
    assert Accepted(exchanges[0]) && exchanges[0].rung == 0;
  }

  /** What the contract of a request leaves of these ends. */
  lemma SecondRungIsNotAsked(request: ChatRequest, before: seq<Emission>, failed: Option<Failure>)
    requires request.protocol == OpenAiChat && request.maxTransientRetries == 1 && !request.IsAborted()
    requires request.transientRetries <= 1 && request.Settled() && request.LadderLeftExactly()
    requires DownTheLadder(request.exchanges) && |request.exchanges| <= 3
    requires forall i :: 0 <= i < |request.exchanges| ==> request.exchanges[i].end == request.Reply(i)
    requires request.Reply(0) == Got(Response(200, Missing, NoStream))
    requires request.Reply(1) == request.Reply(2) == Got(Response(400, Missing, NotJson))
    requires failed.None? ==> request.ShowsLastResponse(before, None)
    requires failed.Some? ==> request.Exhausted(failed.value)
    ensures |request.exchanges| == 2 && EndsIncompatible(request.exchanges) && request.exchanges[1].rung == 0
    ensures failed == Some(HttpError)
  {
    hide Tagged;
    if |request.exchanges| >= 2 {
      EndsOfCut(request.exchanges);
    }
  }

  lemma FirstReplies(request: ChatRequest)
    requires request.network == CutThenIncompatible
    ensures request.Reply(0) == Got(Response(200, Missing, NoStream))
    ensures request.Reply(1) == request.Reply(2) == Got(Response(400, Missing, NotJson))
  {
    assert forall n :: request.Followed(n, 0) == (EndOf(CutThenIncompatible(n)), n + 1);
    assert request.Spent(1) == 1 && request.Spent(2) == 2;
  }

  predicate HasOutput(emitted: seq<Emission>) {
    exists i :: 0 <= i < |emitted| && IsOutput(emitted[i].event)
  }

  /** Everything visible comes from one source, and nothing is terminal but, without a failure, a last done. */
  ghost predicate ShownFrom(emitted: seq<Emission>, failure: Option<Failure>, source: int) {
    && (forall i :: 0 <= i < |emitted| && IsOutput(emitted[i].event) ==> emitted[i].source == source)
    && (forall i :: 0 <= i < |emitted| - (if failure.None? then 1 else 0) ==> !IsTerminal(emitted[i].event))
    && (failure.None? ==> emitted != [] && emitted[|emitted| - 1].event.Done?)
    && (failure == Some(Cut(true)) ==> HasOutput(emitted))
  }

  /** Everything visible comes from one source, and the last event is the only terminal one. */
  ghost predicate EndsOnce(emitted: seq<Emission>, source: int) {
    && emitted != [] && IsTerminal(emitted[|emitted| - 1].event)
    && (forall i :: 0 <= i < |emitted| - 1 ==> !IsTerminal(emitted[i].event))
    && (forall i :: 0 <= i < |emitted| && IsOutput(emitted[i].event) ==> emitted[i].source == source)
  }

  lemma SilentIsShown(emitted: seq<Emission>, failure: Failure, source: int)
    requires Silent(emitted) && failure != Cut(true)
    ensures ShownFrom(emitted, Some(failure), source)
  {
  }

  lemma ShownOutput(emitted: seq<Emission>, failure: Failure, source: int)
    requires ShownFrom(emitted, Some(failure), source)
    ensures failure == Cut(true) ==> HasOutput(emitted)
  {
  }

  lemma DoneEndsOnce(emitted: seq<Emission>, source: int)
    requires ShownFrom(emitted, None, source)
    ensures emitted != [] && emitted[|emitted| - 1].event.Done? && EndsOnce(emitted, source)
  {
  }

  lemma StillSilent(before: seq<Emission>, events: seq<ChatEvent>, source: nat)
    requires Silent(before) && !AnyOutput(events) && NoTerminal(events)
    ensures Silent(before + Tagged(events, source))
  {
    forall i | 0 <= i < |before| + |events|
      ensures var e := (before + Tagged(events, source))[i].event; !IsOutput(e) && !IsTerminal(e)
    {
      if i >= |before| {
        assert (before + Tagged(events, source))[i].event == events[i - |before|];
      }
    }
  }

  /** What was shown is the body's events, so it ends, is visible and is tagged as they are. */
  lemma ShownOnce(before: seq<Emission>, body: Body, parse: string -> Record, source: nat)
    requires Silent(before)
    ensures ShownFrom(before + Tagged(Shown(body, parse).0, source), Shown(body, parse).1, source)
  {
    hide Shown;
    ShownEnds(body, parse);
    var (events, failure) := Shown(body, parse);
    var emitted := before + Tagged(events, source);
    forall i | 0 <= i < |emitted|
      ensures i < |before| ==> emitted[i] == before[i]
      ensures i >= |before| ==> emitted[i] == Emission(events[i - |before|], source)
    {
    }
    assert failure.None? ==> forall i :: 0 <= i < |events| - 1 ==> Front(events)[i] == events[i];
    if failure == Some(Cut(true)) {
      var j :| 0 <= j < |events| && IsOutput(events[j]);
      assert emitted[|before| + j].event == events[j];
    }
  }

  /** A plain answer is shown as its text, then its refusal, then done with its stop reason and usage. */
  lemma JsonShows(text: string, refusal: string, stopReason: Option<string>, usage: Option<UsagePatch>,
                  parse: string -> Record)
    ensures var (events, failure) := Shown(Json(text, refusal, stopReason, usage), parse);
            var told := MergeUsage(None, usage);
            && (failure == if text == "" && refusal == "" then Some(Unusable) else None)
            && (failure.Some? ==> events == [])
            && (failure.None? ==>
                  && events != [] && Last(events) == Done(stopReason, told)
                  && Shows(Front(events), told, Delta(true, text, "", "", refusal, stopReason, None)))
  {
    if text != "" || refusal != "" {
      var d := Delta(true, text, "", "", refusal, stopReason, None);
      var told := MergeUsage(None, usage);
      RecordShows(told, d);
      var events := Shown(Json(text, refusal, stopReason, usage), parse).0;
      assert Front(events) == DeltaEvents(told, d);
      hide Shows;
      hide DeltaEvents;
    }
  }

  /** A stream is shown as what its records carry, each text as what it is, then done, if its end was marked. */
  lemma StreamShows(chunks: seq<string>, ending: Ending, parse: string -> Record)
    ensures var (events, failure) := Shown(Stream(chunks, ending), parse);
            var read := ReadOf(LinesOf(TextOf(chunks, ending), ending.Closed?), parse);
            var deltas := DeltasOf(read, parse);
            && (failure.None? <==> read != [] && SizeOf(deltas) <= MAX_RESPONSE_LENGTH && Marks(Last(read), parse))
            && events == EventsOf(Fitting(deltas))
                         + (if failure.None? then [Done(LastReason(deltas), UsageAfter(deltas))] else [])
            && (forall kind :: Carried(events, kind) == Fields(Fitting(deltas), kind))
            && (failure == Some(Unusable) <==>
                  || SizeOf(deltas) > MAX_RESPONSE_LENGTH
                  || (read != [] && Fails(Last(read), parse)
                      && parse(EventStream.DataOf(Last(read))) != ProviderError(true)))
            && (failure.Some? && failure != Some(Unusable) ==> failure.value.Cut?)
  {
    var text := TextOf(chunks, ending);
    StreamShowsItsRecords(text, ending.Closed?, parse);
    var p := Reference(text, ending.Closed?, parse);
    var (events, failure) := Shown(Stream(chunks, ending), parse);
    var deltas := DeltasOf(ReadOf(LinesOf(text, ending.Closed?), parse), parse);
    assert events == p.state.events + if failure.None? then [Done(p.state.stopReason, p.state.usage)] else [];
    hide Reference;
    hide Shown;
    hide EventsOf;
    hide Fields;
    hide LinesOf;
    hide ReadOf;
    hide DeltasOf;
    hide SizeOf;
    if failure.None? {
      forall kind ensures Carried(events, kind) == Fields(Fitting(deltas), kind) {
        CarriedByBoth(p.state.events, [Done(p.state.stopReason, p.state.usage)], kind);
        NothingCarried(Done(p.state.stopReason, p.state.usage), kind);
      }
    }
  }

  /** A body that is missing or cannot be read shows nothing and may be asked for again; one of no protocol may not. */
  lemma OthersShow(body: Body, parse: string -> Record)
    requires !body.Stream? && !body.Json?
    ensures Shown(body, parse) == ([], Some(if body.NotJson? then Unusable else Cut(false)))
  {
  }

  lemma NothingCarried(e: ChatEvent, kind: Kind)
    requires IsTerminal(e)
    ensures Carried([e], kind) == ""
  {
    assert Front([e]) == [];
  }

  /** Reading a body shows at most one terminal event, done, at the end, exactly when it succeeds. */
  lemma ShownEnds(body: Body, parse: string -> Record)
    ensures var (events, failure) := Shown(body, parse);
            && (failure.None? <==> events != [] && Last(events).Done?)
            && NoTerminal(if failure.None? then Front(events) else events)
            && (failure.Some? && failure.value == Cut(false) ==> !AnyOutput(events))
            && (failure.Some? && failure.value.Cut? ==> failure.value.emittedOutput == AnyOutput(events))
  {
    match body
    case Stream(chunks, ending) =>
      var text := TextOf(chunks, ending);
      EmittedOutputIsExact(LinesOf(text, ending.Closed?), parse);
    case Json(text, refusal, stopReason, usage) =>
    case _ =>
  }
}
