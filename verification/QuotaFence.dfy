/**
 * Reading the quota of the managed account. A result is offered only if no lifecycle operation of the
 * gateway touched the account meanwhile, which a generation and the set of queued operations decide.
 */
module QuotaFence {
  import opened Common

  /** What runs between two awaits of a reader. */
  datatype Action =
    | Enqueue(operation: nat)
    | Settle(operation: nat)
    | CancelOperations
    | Shutdown
    | CallerAborts(request: nat)
    | TimesOut(request: nat)

  datatype Kind = AccountChanging | TimedOut | Network | Unauthenticated | Unsupported

  /** The generation, the operations that are queued or running, and why each pending request was aborted. */
  datatype Gateway = Gateway(generation: nat, operations: set<nat>, shutdown: bool, requests: map<nat, Option<Kind>>)

  predicate CanRead(g: Gateway) {
    !g.shutdown && g.operations == {}
  }

  function Invalidated(g: Gateway): Gateway {
    g.(generation := g.generation + 1, requests := map r | r in g.requests :: Aborted(g.requests[r], AccountChanging))
  }

  /** The first reason of an abort stays. */
  function Aborted(reason: Option<Kind>, kind: Kind): Option<Kind> {
    if reason.Some? then reason else Some(kind)
  }

  function Next(g: Gateway, a: Action): Gateway {
    match a
    case Enqueue(operation) => Invalidated(g.(operations := g.operations + {operation}))
    case Settle(operation) => g.(operations := g.operations - {operation})
    case CancelOperations => Invalidated(g)
    case Shutdown => Invalidated(g.(shutdown := true))
    case CallerAborts(r) =>
      if r in g.requests then g.(requests := g.requests[r := Aborted(g.requests[r], AccountChanging)]) else g
    case TimesOut(r) =>
      if r in g.requests then g.(requests := g.requests[r := Aborted(g.requests[r], Kind.TimedOut)]) else g
  }

  function After(g: Gateway, run: seq<Action>): Gateway {
    if run == [] then g else Next(After(g, run[..|run| - 1]), run[|run| - 1])
  }

  predicate Touches(a: Action) {
    a.Enqueue? || a.CancelOperations? || a.Shutdown?
  }

  predicate Quiet(run: seq<Action>) {
    forall k :: 0 <= k < |run| ==> !Touches(run[k])
  }

  lemma {:induction false} GenerationsCountTouches(g: Gateway, run: seq<Action>)
    ensures After(g, run).generation >= g.generation
    ensures After(g, run).generation == g.generation <==> Quiet(run)
    decreases |run|
  {
    if run != [] {
      GenerationsCountTouches(g, run[..|run| - 1]);
    }
  }

  /**
   * If the generation is the captured one and reading was possible at the capture, then it was possible all
   * the time: no operation was queued, running or cancelled at any point in between.
   */
  lemma {:induction false} SameGenerationIsQuiet(g: Gateway, run: seq<Action>, k: nat)
    requires CanRead(g) && After(g, run).generation == g.generation && k <= |run|
    ensures CanRead(After(g, run[..k]))
    ensures Quiet(run)
    decreases k
  {
    GenerationsCountTouches(g, run);
    if k > 0 {
      SameGenerationIsQuiet(g, run, k - 1);
      assert run[..k][..k - 1] == run[..k - 1];
    }
  }

  ghost predicate ReadableThroughout(g: Gateway, run: seq<Action>) {
    forall k: nat | k <= |run| :: CanRead(After(g, run[..k]))
  }

  lemma ReadableAllAlong(g: Gateway, run: seq<Action>)
    requires CanRead(g) && After(g, run).generation == g.generation
    ensures Quiet(run) && ReadableThroughout(g, run)
  {
    forall k: nat | k <= |run| ensures CanRead(After(g, run[..k])) {
      SameGenerationIsQuiet(g, run, k);
    }
    GenerationsCountTouches(g, run);
  }

  /** The gateway with one more pending request. */
  function Entered(g: Gateway, request: nat): Gateway {
    g.(requests := g.requests[request := None])
  }

  lemma {:induction false} AfterBoth(g: Gateway, first: seq<Action>, second: seq<Action>)
    ensures After(g, first + second) == After(After(g, first), second)
    decreases |second|
  {
    if second == [] {
      assert first + second == first;
    } else {
      var n := |second| - 1;
      assert (first + second)[..|first| + n] == first + second[..n];
      AfterBoth(g, first, second[..n]);
    }
  }

  lemma NothingYet(g: Gateway)
    ensures After(g, []) == g
  {
  }

  /** An abort stays, and a new request is not aborted. */
  lemma {:induction false} AbortsStay(g: Gateway, run: seq<Action>, r: nat)
    requires r in g.requests
    ensures r in After(g, run).requests
    ensures g.requests[r].Some? ==> After(g, run).requests[r] == g.requests[r]
    decreases |run|
  {
    if run != [] {
      AbortsStay(g, run[..|run| - 1], r);
    }
  }

  /** Nothing touched the account, and this request was not aborted. */
  predicate Undisturbed(run: seq<Action>, r: nat) {
    forall k :: 0 <= k < |run| ==> !Touches(run[k]) && run[k] != CallerAborts(r) && run[k] != TimesOut(r)
  }

  /** An operation keeps the account unreadable until it settles, a shutdown for good. */
  lemma {:induction false} UnreadableWhile(g: Gateway, run: seq<Action>, k: nat)
    requires k < |run|
    requires run[k].Shutdown? || (run[k].Enqueue? && Settle(run[k].operation) !in run[k + 1..])
    ensures !CanRead(After(g, run))
    ensures run[k].Shutdown? ==> After(g, run).shutdown
    ensures run[k].Enqueue? ==> run[k].operation in After(g, run).operations
    decreases |run|
  {
    var n := |run| - 1;
    if k < n {
      assert run[k + 1..] == run[..n][k + 1..] + [run[n]];
      UnreadableWhile(g, run[..n], k);
    }
    assert After(g, run) == Next(After(g, run[..n]), run[n]);
    if run[k].Enqueue? {
      assert run[k].operation in After(g, run).operations;
    }
  }

  /** Once all operations of a gateway have settled, and none is new, the account is readable again. */
  lemma {:induction false} ReadableAgain(g: Gateway, run: seq<Action>)
    requires !g.shutdown && Shutdown !in run && (forall op | op in g.operations :: Settle(op) in run)
    requires forall k :: 0 <= k < |run| && run[k].Enqueue? ==> Settle(run[k].operation) in run[k + 1..]
    ensures CanRead(After(g, run))
  {
    if exists op :: op in After(g, run).operations {
      var op :| op in After(g, run).operations;
      StillRunning(g, run, op);
    }
    StillUp(g, run);
  }

  lemma {:induction false} StillRunning(g: Gateway, run: seq<Action>, op: nat)
    requires op in After(g, run).operations
    ensures (op in g.operations && Settle(op) !in run)
            || exists k :: 0 <= k < |run| && run[k] == Enqueue(op) && Settle(op) !in run[k + 1..]
    decreases |run|
  {
    if run != [] {
      var n := |run| - 1;
      if run[n] == Enqueue(op) {
        assert Settle(op) !in run[n + 1..];
      } else {
        StillRunning(g, run[..n], op);
        assert run == run[..n] + [run[n]];
        if k :| 0 <= k < n && run[..n][k] == Enqueue(op) && Settle(op) !in run[..n][k + 1..] {
          assert run[k + 1..] == run[..n][k + 1..] + [run[n]];
        }
      }
    }
  }

  lemma {:induction false} StillUp(g: Gateway, run: seq<Action>)
    requires !g.shutdown && Shutdown !in run
    ensures !After(g, run).shutdown
    decreases |run|
  {
    if run != [] {
      StillUp(g, run[..|run| - 1]);
    }
  }

  lemma UndisturbedParts(first: seq<Action>, rest: seq<Action>, r: nat)
    ensures Undisturbed(first + rest, r) <==> Undisturbed(first, r) && Undisturbed(rest, r)
  {
    assert forall k :: 0 <= k < |first| ==> (first + rest)[k] == first[k];
    assert forall k :: 0 <= k < |rest| ==> (first + rest)[|first| + k] == rest[k];
  }

  lemma {:induction false} UnabortedExactly(g: Gateway, run: seq<Action>, r: nat)
    requires r in g.requests && g.requests[r].None?
    ensures r in After(g, run).requests
    ensures After(g, run).requests[r].None? <==> Undisturbed(run, r)
    decreases |run|
  {
    if run != [] {
      UnabortedExactly(g, run[..|run| - 1], r);
    }
  }

  lemma {:induction false} AbortedByFirst(g: Gateway, run: seq<Action>, r: nat, k: nat)
    requires r in g.requests && g.requests[r].None? && k < |run|
    requires Undisturbed(run[..k], r) && !Undisturbed([run[k]], r)
    ensures r in After(g, run).requests
    ensures After(g, run).requests[r] == Some(if run[k] == TimesOut(r) then Kind.TimedOut else AccountChanging)
  {
    UnabortedExactly(g, run[..k], r);
    assert run[..k + 1][..k] == run[..k] && run == run[..k + 1] + run[k + 1..];
    AfterBoth(g, run[..k + 1], run[k + 1..]);
    AbortsStay(After(g, run[..k + 1]), run[k + 1..], r);
  }

  /** The check after an await passes exactly if nothing disturbed the request until then. */
  lemma CurrentExactly(g: Gateway, run: seq<Action>, r: nat)
    requires CanRead(g) && r in g.requests && g.requests[r].None?
    ensures r in After(g, run).requests
    ensures After(g, run).requests[r].None? && After(g, run).generation == g.generation && CanRead(After(g, run))
            <==> Undisturbed(run, r)
  {
    UnabortedExactly(g, run, r);
    GenerationsCountTouches(g, run);
    if Undisturbed(run, r) {
      SameGenerationIsQuiet(g, run, |run|);
      assert run[..|run|] == run;
    }
  }

  // ----- The reader

  datatype Credential = Credential(accountKey: string, token: string)

  datatype Read<+T> = Got(value: T) | Threw(kind: Kind)

  datatype Window = Window(name: string, used: real)

  datatype QuotaResult =
    | Available(accountKey: string, windows: seq<Window>)
    | Unavailable(kind: Kind, account: Option<string>)

  /** What each await brings, and what else runs during it. */
  datatype Environment = Environment(
    before: Read<Credential>, duringBefore: seq<Action>,
    response: Read<seq<Window>>, duringFetch: seq<Action>, duringBody: seq<Action>,
    after: Read<Credential>, duringAfter: seq<Action>)
  {
    function Others(): seq<Action> {
      duringBefore + duringFetch + duringBody + duringAfter
    }
  }

  /** An account that is named with a failure, unless the failure is about the account. */
  function Named(kind: Kind, account: string): QuotaResult {
    Unavailable(kind, if kind in {AccountChanging, Unauthenticated} then None else Some(account))
  }

  /** What a read comes to if nothing disturbs it: the first of its failures in this order. */
  function Undisturbedly(e: Environment): QuotaResult {
    if e.before.Threw? then Unavailable(e.before.kind, None)
    else
      var account := e.before.value.accountKey;
      if e.after.Threw? then Named(e.after.kind, account)
      else if e.after.value.accountKey != account then Unavailable(AccountChanging, None)
      else if e.response.Threw? then Named(e.response.kind, account)
      else if e.response.value == [] then Unavailable(Unsupported, Some(account))
      else Available(account, e.response.value)
  }

  class ManagedChatGptQuotaReader {
    var gateway: Gateway
    ghost var log: seq<Action>

    constructor ()
      ensures gateway == Gateway(0, {}, false, map[]) && log == []
    {
      gateway, log := Gateway(0, {}, false, map[]), [];
    }

    /** What runs during an await. */
    method Interfere(others: seq<Action>)
      modifies this
      ensures gateway == After(old(gateway), others) && log == old(log) + others
    {
      for i := 0 to |others|
        invariant gateway == After(old(gateway), others[..i]) && log == old(log) + others[..i]
      {
        assert others[..i + 1][..i] == others[..i];
        gateway := Next(gateway, others[i]);
        log := log + [others[i]];
      }
      assert others[..|others|] == others;
    }

    /** The check after an await: the reason to give up, if any. */
    method Current(request: nat, generation: nat) returns (reason: Option<Kind>)
      requires request in gateway.requests
      ensures reason.None? <==> gateway.requests[request].None? && generation == gateway.generation && CanRead(gateway)
      ensures reason.Some? ==>
                reason == if gateway.requests[request].Some? then gateway.requests[request] else Some(AccountChanging)
    {
      if gateway.requests[request].Some? {
        return gateway.requests[request];
      }
      return if generation != gateway.generation || !CanRead(gateway) then Some(AccountChanging) else None;
    }

    method Await(request: nat, generation: nat, others: seq<Action>, ghost start: Gateway, ghost soFar: seq<Action>)
      returns (reason: Option<Kind>, ghost run: seq<Action>)
      requires request in start.requests && start.requests[request].None? && CanRead(start)
      requires gateway == After(start, soFar) && generation == start.generation
      modifies this
      ensures run == soFar + others && log == old(log) + others && gateway == After(start, run)
      ensures request in gateway.requests
      ensures reason.None? <==> Undisturbed(run, request)
      ensures gateway.requests[request].None? <==> Undisturbed(run, request)
      ensures reason.Some? ==> reason == gateway.requests[request]
      ensures reason.None? ==> gateway.generation == start.generation
    {
      Interfere(others);
      run := soFar + others;
      AfterBoth(start, soFar, others);
      CurrentExactly(start, run, request);
      UnabortedExactly(start, run, request);
      reason := Current(request, generation);
    }

    /**
     * read. A quota is available exactly if it came with windows, the account was the same before and after the
     * request, nothing touched the gateway from the capture of the generation to the last check, and the request
     * was not aborted.
     */
    method Read(request: nat, callerAborted: bool, e: Environment) returns (r: QuotaResult, ghost run: seq<Action>)
      requires request !in gateway.requests
      modifies this
      ensures log == old(log) + run && run <= e.Others()
      ensures r.Available? <==>
                && old(CanRead(gateway)) && !callerAborted && Undisturbed(e.Others(), request)
                && e.before.Got? && e.after.Got? && e.before.value.accountKey == e.after.value.accountKey
                && e.response.Got? && e.response.value != []
      ensures r.Available? ==>
                && run == e.Others() && ReadableThroughout(Entered(old(gateway), request), run)
                && r.accountKey == e.before.value.accountKey && r.windows == e.response.value
      ensures r.Unavailable? && r.account.Some? ==>
                r.kind != AccountChanging && e.before.Got? && r.account.value == e.before.value.accountKey
      ensures !old(CanRead(gateway)) || callerAborted ==> r == Unavailable(AccountChanging, None)
      ensures old(CanRead(gateway)) && !callerAborted && Undisturbed(run, request) ==> r == Undisturbedly(e)
      ensures old(CanRead(gateway)) && !callerAborted && !Undisturbed(run, request) ==>
                && request in gateway.requests && gateway.requests[request].Some?
                && r.Unavailable? && r.kind == gateway.requests[request].value
    {
      hide After;
      hide Quiet;
      hide ReadableThroughout;
      run := [];
      if !CanRead(gateway) || callerAborted {
        return Unavailable(AccountChanging, None), run;
      }
      var generation := gateway.generation;
      gateway := Entered(gateway, request);
      ghost var start := gateway;
      NothingYet(start);
      assert [] + e.duringBefore == e.duringBefore;
      UndisturbedParts(e.duringBefore, e.duringFetch, request);
      UndisturbedParts(e.duringBefore + e.duringFetch, e.duringBody, request);
      UndisturbedParts(e.duringBefore + e.duringFetch + e.duringBody, e.duringAfter, request);
      hide Undisturbed;
      var reason;
      reason, run := Await(request, generation, e.duringBefore, start, run);
      if e.before.Threw? {
        r := Failure(request, e.before.kind, None);
        return r, run;
      }
      if reason.Some? {
        r := Failure(request, reason.value, None);
        return r, run;
      }
      var account := e.before.value.accountKey;
      reason, run := Await(request, generation, e.duringFetch, start, run);
      // A failed fetch or check is kept until the account was read again.
      if reason.None? {
        reason, run := Await(request, generation, e.duringBody, start, run);
      }
      if reason.Some? {
        r := Failure(request, reason.value, Some(account));
        return r, run;
      }
      reason, run := Await(request, generation, e.duringAfter, start, run);
      if e.after.Threw? {
        r := Failure(request, e.after.kind, Some(account));
        return r, run;
      }
      if reason.Some? {
        r := Failure(request, reason.value, Some(account));
        return r, run;
      }
      if e.after.value.accountKey != account {
        return Unavailable(AccountChanging, None), run;
      }
      if e.response.Threw? {
        r := Failure(request, e.response.kind, Some(account));
        return r, run;
      }
      ReadableAllAlong(start, run);
      if e.response.value == [] {
        return Unavailable(Unsupported, Some(account)), run;
      }
      return Available(account, e.response.value), run;
    }

    /** The result after an error; an abort names its own reason, and a changing account is never named. */
    method Failure(request: nat, kind: Kind, account: Option<string>) returns (r: QuotaResult)
      requires request in gateway.requests
      ensures r.Unavailable?
      ensures r.kind == if gateway.requests[request].Some? then gateway.requests[request].value else kind
      ensures r.account == if r.kind in {AccountChanging, Unauthenticated} then None else account
    {
      var reason := if gateway.requests[request].Some? then gateway.requests[request].value else kind;
      return Unavailable(reason, if reason == AccountChanging || reason == Unauthenticated then None else account);
    }
  }
}
