/**
 * The single-flight token refresh of src/lib/api-client.js: the module-level
 * flag `isRefreshing` and the FIFO list `requests` of deferred retries, driven by
 * the events the promise chains deliver on the one event loop.
 *
 * `Step` is the specification of one event; `Run` replays a sequence of events;
 * `RefreshCoordinator` is the stateful object whose event methods are proved
 * against `Step`.
 *
 * The refresh chain `refreshToken().then(..).catch(..).finally(..)` passes
 * through two waiting points, recorded in `Chain`: first it waits for the new
 * token; after a success it re-issues the deferred requests and the request that
 * triggered the refresh, and then waits for that retried request, because the
 * `.finally` that clears `isRefreshing` runs only once the promise returned by the
 * `.then` handler has settled. A rejection of that retried request is caught by
 * the same `.catch` as a failed refresh.
 */
module Refresh {
  import opened Wrappers
  import opened RequestConfig
  import ResponseGate

  /** Where the single refresh chain stands. */
  datatype Chain =
    | Idle
    | AwaitingToken(trigger: Config)  // `refreshToken()` is running; `trigger` is the config of the 401 that started it
    | AwaitingRetry                   // the trigger has been re-issued; the chain settles when it does

  datatype RefreshState = RefreshState(refreshing: bool, queue: seq<Config>, chain: Chain)

  /** `isRefreshing` is set exactly while a refresh chain is in progress. */
  predicate Consistent(s: RefreshState) {
    s.refreshing <==> !s.chain.Idle?
  }

  /** The module's state when it is loaded: not refreshing, nothing deferred. */
  const INITIAL: RefreshState := RefreshState(false, [], Idle)

  datatype Event =
    | Unauthorized(config: Config)  // a response with envelope code 401 for the request `config`
    | TokenRefreshed(token: string) // `refreshToken()` resolved with `token`
    | RefreshRejected               // `refreshToken()` rejected
    | RetrySettled(succeeded: bool) // the re-issued trigger settled

  datatype Effect =
    | StartRefresh                                // `refreshToken()` is called
    | Deferred                                    // a retry callback is pushed onto `requests`
    | Reissue(token: string, configs: seq<Config>) // token stored, then these requests re-issued, in order
    | Released                                    // the trigger resolves with its retry's result
    | SessionLost                                 // storage cleared, the trigger rejected with its 401 envelope

  /** The events the promise chains can deliver in a state. */
  predicate Enabled(s: RefreshState, e: Event) {
    match e
    case Unauthorized(_) => true
    case TokenRefreshed(_) => s.chain.AwaitingToken?
    case RefreshRejected => s.chain.AwaitingToken?
    case RetrySettled(_) => s.chain.AwaitingRetry?
  }

  /** Each config with `token` written into its `Authorization` header, in the same order. */
  function AuthorizeAll(cs: seq<Config>, token: string): (r: seq<Config>)
    ensures |r| == |cs|
    ensures forall i :: 0 <= i < |r| ==> r[i] == Authorize(cs[i], token)
    decreases |cs|
  {
    if cs == [] then [] else AuthorizeAll(cs[..|cs| - 1], token) + [Authorize(cs[|cs| - 1], token)]
  }

  /** One event: what the handlers of `responseInterceptor` and the refresh chain do. */
  function Step(s: RefreshState, e: Event): (r: (RefreshState, Effect))
    requires Enabled(s, e)
    ensures Consistent(s) ==> Consistent(r.0)
    ensures r.1 == StartRefresh <==> e.Unauthorized? && !s.refreshing
    ensures e.Unauthorized? ==> r.0.refreshing
  {
    match e
    case Unauthorized(config) =>
      if !s.refreshing then (RefreshState(true, s.queue, AwaitingToken(config)), StartRefresh)
      else (s.(queue := s.queue + [config]), Deferred)
    case TokenRefreshed(token) =>
      var retries := AuthorizeAll(s.queue, token) + [Authorize(s.chain.trigger, token)];
      (RefreshState(s.refreshing, [], AwaitingRetry), Reissue(token, retries))
    case RefreshRejected =>
      (RefreshState(false, s.queue, Idle), SessionLost)
    case RetrySettled(succeeded) =>
      (RefreshState(false, s.queue, Idle), if succeeded then Released else SessionLost)
  }

  /** The events can be delivered one after the other from `s`. */
  predicate Admissible(s: RefreshState, es: seq<Event>)
    decreases |es|
  {
    es == [] || (Enabled(s, es[0]) && Admissible(Step(s, es[0]).0, es[1..]))
  }

  /** The state after the events and the effect of each. */
  function Run(s: RefreshState, es: seq<Event>): (r: (RefreshState, seq<Effect>))
    requires Admissible(s, es)
    ensures |r.1| == |es|
    decreases |es|
  {
    if es == [] then (s, [])
    else
      var next := Step(s, es[0]);
      var rest := Run(next.0, es[1..]);
      (rest.0, [next.1] + rest.1)
  }

  lemma {:induction false} RunConsistent(s: RefreshState, es: seq<Event>)
    requires Consistent(s) && Admissible(s, es)
    ensures Consistent(Run(s, es).0)
    decreases |es|
  {
    if es != [] {
      RunConsistent(Step(s, es[0]).0, es[1..]);
    }
  }

  /** Delivering `e` and then `es` is stepping with `e` and running `es` from there. */
  lemma RunCons(s: RefreshState, e: Event, es: seq<Event>)
    requires Enabled(s, e) && Admissible(Step(s, e).0, es)
    ensures Admissible(s, [e] + es)
    ensures Run(s, [e] + es) == (Run(Step(s, e).0, es).0, [Step(s, e).1] + Run(Step(s, e).0, es).1)
  {
    assert ([e] + es)[0] == e;
    assert ([e] + es)[1..] == es;
  }

  lemma {:induction false} RunAppend(s: RefreshState, a: seq<Event>, b: seq<Event>)
    requires Admissible(s, a) && Admissible(Run(s, a).0, b)
    ensures Admissible(s, a + b)
    ensures Run(s, a + b) == (Run(Run(s, a).0, b).0, Run(s, a).1 + Run(Run(s, a).0, b).1)
    decreases |a|
  {
    if a == [] {
      assert a + b == b;
      assert Run(s, a) == (s, []);
      assert [] + Run(s, b).1 == Run(s, b).1;
    } else {
      var next := Step(s, a[0]);
      RunAppend(next.0, a[1..], b);
      assert a + b == [a[0]] + (a[1..] + b);
      RunCons(s, a[0], a[1..] + b);
      var mid := Run(next.0, a[1..]);
      var tail := Run(mid.0, b);
      assert Run(s, a) == (mid.0, [next.1] + mid.1);
      assert [next.1] + (mid.1 + tail.1) == ([next.1] + mid.1) + tail.1;
    }
  }

  function CountStarts(effects: seq<Effect>): nat
    decreases |effects|
  {
    if effects == [] then 0 else (if effects[0] == StartRefresh then 1 else 0) + CountStarts(effects[1..])
  }

  predicate Settles(e: Event) {
    e.RefreshRejected? || e.RetrySettled?
  }

  predicate NoSettlement(es: seq<Event>) {
    forall i :: 0 <= i < |es| ==> !Settles(es[i])
  }

  predicate HasUnauthorized(es: seq<Event>)
    decreases |es|
  {
    es != [] && (es[0].Unauthorized? || HasUnauthorized(es[1..]))
  }

  /**
   * Single flight: until the refresh chain settles, at most one refresh starts,
   * and none when one is already in progress, however many 401 responses arrive.
   */
  lemma {:induction false} SingleFlight(s: RefreshState, es: seq<Event>)
    requires Consistent(s) && Admissible(s, es) && NoSettlement(es)
    ensures CountStarts(Run(s, es).1) == if !s.refreshing && HasUnauthorized(es) then 1 else 0
    ensures Run(s, es).0.refreshing == (s.refreshing || HasUnauthorized(es))
    decreases |es|
  {
    if es != [] {
      var next := Step(s, es[0]);
      assert NoSettlement(es[1..]) by {
        forall i | 0 <= i < |es[1..]| ensures !Settles(es[1..][i]) {
          assert es[1..][i] == es[i + 1];
        }
      }
      assert !Settles(es[0]);
      SingleFlight(next.0, es[1..]);
      if !s.refreshing {
        assert s.chain.Idle?;
        assert es[0].Unauthorized?;
      }
    }
  }

  /** A 401 for each config, in this order. */
  function Unauthorizeds(cs: seq<Config>): (es: seq<Event>)
    ensures |es| == |cs|
    decreases |cs|
  {
    if cs == [] then [] else [Unauthorized(cs[0])] + Unauthorizeds(cs[1..])
  }

  function Deferrals(n: nat): seq<Effect>
    decreases n
  {
    if n == 0 then [] else [Deferred] + Deferrals(n - 1)
  }

  lemma {:induction false} NoStartsInDeferrals(n: nat)
    ensures CountStarts(Deferrals(n)) == 0
    decreases n
  {
    if n > 0 {
      NoStartsInDeferrals(n - 1);
    }
  }

  lemma {:induction false} CountStartsAppend(a: seq<Effect>, b: seq<Effect>)
    ensures CountStarts(a + b) == CountStarts(a) + CountStarts(b)
    decreases |a|
  {
    if a == [] {
      assert a + b == b;
    } else {
      assert (a + b)[0] == a[0];
      assert (a + b)[1..] == a[1..] + b;
      CountStartsAppend(a[1..], b);
    }
  }

  /** While a refresh chain is in progress, every 401 is deferred, in arrival order. */
  lemma {:induction false} DeferAll(q: seq<Config>, chain: Chain, cs: seq<Config>)
    requires !chain.Idle?
    ensures Admissible(RefreshState(true, q, chain), Unauthorizeds(cs))
    ensures Run(RefreshState(true, q, chain), Unauthorizeds(cs)) == (RefreshState(true, q + cs, chain), Deferrals(|cs|))
    decreases |cs|
  {
    var s := RefreshState(true, q, chain);
    if cs == [] {
      assert q + cs == q;
    } else {
      DeferAll(q + [cs[0]], chain, cs[1..]);
      assert Step(s, Unauthorized(cs[0])) == (RefreshState(true, q + [cs[0]], chain), Deferred);
      RunCons(s, Unauthorized(cs[0]), Unauthorizeds(cs[1..]));
      assert q + [cs[0]] + cs[1..] == q + cs;
    }
  }

  /**
   * N requests that meet a 401 while no refresh runs, followed by a successful
   * refresh: exactly one refresh starts, the other N-1 are deferred, and then every
   * waiting request (those deferred earlier first, then the new ones in arrival
   * order, then the one that started the refresh) is re-issued with the new token.
   */
  lemma ConcurrentUnauthorized(q: seq<Config>, cs: seq<Config>, token: string)
    requires |cs| >= 1
    ensures Admissible(RefreshState(false, q, Idle), Unauthorizeds(cs) + [TokenRefreshed(token)])
    ensures Run(RefreshState(false, q, Idle), Unauthorizeds(cs) + [TokenRefreshed(token)])
         == (RefreshState(true, [], AwaitingRetry),
             [StartRefresh] + Deferrals(|cs| - 1)
               + [Reissue(token, AuthorizeAll(q + cs[1..], token) + [Authorize(cs[0], token)])])
    ensures CountStarts(Run(RefreshState(false, q, Idle), Unauthorizeds(cs) + [TokenRefreshed(token)]).1) == 1
  {
    var s0 := RefreshState(false, q, Idle);
    var first := [Unauthorized(cs[0])];
    var s1 := RefreshState(true, q, AwaitingToken(cs[0]));
    RunCons(s0, Unauthorized(cs[0]), []);
    assert first == [Unauthorized(cs[0])] + [];
    assert [StartRefresh] + [] == [StartRefresh];
    assert Run(s0, first) == (s1, [StartRefresh]);
    DeferAll(q, AwaitingToken(cs[0]), cs[1..]);
    var s2 := RefreshState(true, q + cs[1..], AwaitingToken(cs[0]));
    RunAppend(s0, first, Unauthorizeds(cs[1..]));
    assert first + Unauthorizeds(cs[1..]) == Unauthorizeds(cs);
    var last := [TokenRefreshed(token)];
    RunCons(s2, TokenRefreshed(token), []);
    assert last == [TokenRefreshed(token)] + [];
    assert [Reissue(token, AuthorizeAll(q + cs[1..], token) + [Authorize(cs[0], token)])] + []
        == [Reissue(token, AuthorizeAll(q + cs[1..], token) + [Authorize(cs[0], token)])];
    assert Run(s2, last) == (RefreshState(true, [], AwaitingRetry),
                             [Reissue(token, AuthorizeAll(q + cs[1..], token) + [Authorize(cs[0], token)])]);
    RunAppend(s0, Unauthorizeds(cs), last);
    var effects := Run(s0, Unauthorizeds(cs) + last).1;
    CountStartsAppend([StartRefresh] + Deferrals(|cs| - 1), effects[|cs|..]);
    CountStartsAppend([StartRefresh], Deferrals(|cs| - 1));
    NoStartsInDeferrals(|cs| - 1);
    assert effects == ([StartRefresh] + Deferrals(|cs| - 1)) + effects[|cs|..];
  }

  /** Every request re-issued after a refresh carries the new token. */
  lemma ReissueCarriesToken(s: RefreshState, token: string)
    requires s.chain.AwaitingToken?
    ensures Step(s, TokenRefreshed(token)).1.Reissue?
    ensures forall c :: c in Step(s, TokenRefreshed(token)).1.configs ==>
              AUTHORIZATION in c.header && c.header[AUTHORIZATION] == token
  {
    var configs := Step(s, TokenRefreshed(token)).1.configs;
    forall c | c in configs ensures AUTHORIZATION in c.header && c.header[AUTHORIZATION] == token {
      var i :| 0 <= i < |configs| && configs[i] == c;
      if i < |s.queue| {
        assert c == Authorize(s.queue[i], token);
      }
    }
  }

  /**
   * A failed refresh releases nobody: the flag is cleared and the deferred
   * requests stay queued; the next 401 starts a new refresh, and when that one
   * succeeds it re-issues them, before its own trigger.
   */
  lemma FailedRefreshKeepsQueue(q: seq<Config>, trigger: Config, next: Config, token: string)
    ensures Admissible(RefreshState(true, q, AwaitingToken(trigger)),
                       [RefreshRejected, Unauthorized(next), TokenRefreshed(token)])
    ensures Run(RefreshState(true, q, AwaitingToken(trigger)),
                [RefreshRejected, Unauthorized(next), TokenRefreshed(token)])
         == (RefreshState(true, [], AwaitingRetry),
             [SessionLost, StartRefresh, Reissue(token, AuthorizeAll(q, token) + [Authorize(next, token)])])
  {
    var s0 := RefreshState(true, q, AwaitingToken(trigger));
    var s1 := RefreshState(false, q, Idle);
    var s2 := RefreshState(true, q, AwaitingToken(next));
    var s3 := RefreshState(true, [], AwaitingRetry);
    var reissue := Reissue(token, AuthorizeAll(q, token) + [Authorize(next, token)]);
    RunCons(s2, TokenRefreshed(token), []);
    assert [TokenRefreshed(token)] + [] == [TokenRefreshed(token)];
    assert [reissue] + [] == [reissue];
    assert Run(s2, [TokenRefreshed(token)]) == (s3, [reissue]);
    RunCons(s1, Unauthorized(next), [TokenRefreshed(token)]);
    assert [Unauthorized(next)] + [TokenRefreshed(token)] == [Unauthorized(next), TokenRefreshed(token)];
    assert [StartRefresh] + [reissue] == [StartRefresh, reissue];
    assert Run(s1, [Unauthorized(next), TokenRefreshed(token)]) == (s3, [StartRefresh, reissue]);
    RunCons(s0, RefreshRejected, [Unauthorized(next), TokenRefreshed(token)]);
    assert [RefreshRejected] + [Unauthorized(next), TokenRefreshed(token)]
        == [RefreshRejected, Unauthorized(next), TokenRefreshed(token)];
    assert [SessionLost] + [StartRefresh, reissue] == [SessionLost, StartRefresh, reissue];
  }

  /** The configs of the 401 events among `es`, in order. */
  function Pending(es: seq<Event>): seq<Config>
    decreases |es|
  {
    if es == [] then [] else (if es[0].Unauthorized? then [es[0].config] else []) + Pending(es[1..])
  }

  predicate NoRetrySettled(es: seq<Event>) {
    forall i :: 0 <= i < |es| ==> !es[i].RetrySettled?
  }

  /**
   * While the re-issued trigger is in flight the flag stays set: every 401 in the
   * meantime, the trigger's own retry included, is deferred and no refresh starts.
   * Only the trigger's settlement clears the flag, so a trigger whose retry meets
   * another 401 leaves every later 401 waiting.
   */
  lemma {:induction false} RetryInFlightDefersAll(s: RefreshState, es: seq<Event>)
    requires s.refreshing && s.chain.AwaitingRetry?
    requires Admissible(s, es) && NoRetrySettled(es)
    ensures Run(s, es).0 == RefreshState(true, s.queue + Pending(es), AwaitingRetry)
    ensures CountStarts(Run(s, es).1) == 0
    decreases |es|
  {
    if es == [] {
      assert s.queue + Pending(es) == s.queue;
    } else {
      var e := es[0];
      assert !e.RetrySettled?;
      assert e.Unauthorized?;
      var next := RefreshState(true, s.queue + [e.config], AwaitingRetry);
      assert Step(s, e) == (next, Deferred);
      assert NoRetrySettled(es[1..]) by {
        forall i | 0 <= i < |es[1..]| ensures !es[1..][i].RetrySettled? {
          assert es[1..][i] == es[i + 1];
        }
      }
      RetryInFlightDefersAll(next, es[1..]);
      assert Pending(es) == [e.config] + Pending(es[1..]);
      assert s.queue + [e.config] + Pending(es[1..]) == s.queue + Pending(es);
    }
  }

  /**
   * The 401s deferred while the re-issued trigger is in flight outlive it: settling
   * the retry clears the flag and releases nothing, so they stay in `requests` and
   * the chain is idle. Only a later 401 can start the refresh that would release them.
   */
  lemma DeferredDuringRetryStayQueued(s: RefreshState, es: seq<Event>, succeeded: bool)
    requires s.refreshing && s.chain.AwaitingRetry?
    requires Admissible(s, es) && NoRetrySettled(es)
    ensures Admissible(s, es + [RetrySettled(succeeded)])
    ensures Run(s, es + [RetrySettled(succeeded)]).0 == RefreshState(false, s.queue + Pending(es), Idle)
    ensures Run(s, es + [RetrySettled(succeeded)]).1[|es|] == if succeeded then Released else SessionLost
  {
    RetryInFlightDefersAll(s, es);
    var mid := Run(s, es).0;
    var last := [RetrySettled(succeeded)];
    assert Step(mid, RetrySettled(succeeded)) == (RefreshState(false, s.queue + Pending(es), Idle), if succeeded then Released else SessionLost);
    RunCons(mid, RetrySettled(succeeded), []);
    assert [RetrySettled(succeeded)] + [] == last;
    RunAppend(s, es, last);
  }

  /**
   * The object that holds `isRefreshing` and `requests`, with one method per
   * event. `chain` records the position of the refresh chain, which the source
   * keeps in its promise chain rather than in a variable.
   */
  class RefreshCoordinator {
    var isRefreshing: bool
    var requests: seq<Config>
    var chain: Chain

    ghost predicate Valid()
      reads this
    {
      Consistent(State())
    }

    function State(): RefreshState
      reads this
    {
      RefreshState(isRefreshing, requests, chain)
    }

    constructor ()
      ensures Valid() && State() == INITIAL
    {
      isRefreshing := false;
      requests := [];
      chain := Idle;
    }

    /** A 401 envelope for the request `config`: start the one refresh, or defer `config`. */
    method OnUnauthorized(config: Config) returns (effect: Effect)
      requires Valid()
      modifies this
      ensures Valid()
      ensures (State(), effect) == Step(old(State()), Unauthorized(config))
      ensures effect == StartRefresh <==> !old(isRefreshing)
      ensures effect != StartRefresh ==> effect == Deferred
      ensures isRefreshing
      ensures requests == if old(isRefreshing) then old(requests) + [config] else old(requests)
    {
      if !isRefreshing {
        isRefreshing := true;
        chain := AwaitingToken(config);
        effect := StartRefresh;
      } else {
        requests := requests + [config];
        effect := Deferred;
      }
    }

    /**
     * The refresh resolved with `token`: every deferred request is re-issued in
     * order with the token in its `Authorization` header, the list is emptied,
     * and the trigger is re-issued last. The flag stays set until the trigger settles.
     */
    method OnTokenRefreshed(token: string) returns (effect: Effect)
      requires Valid() && chain.AwaitingToken?
      modifies this
      ensures Valid()
      ensures (State(), effect) == Step(old(State()), TokenRefreshed(token))
      ensures effect == Reissue(token, AuthorizeAll(old(requests), token) + [Authorize(old(chain).trigger, token)])
      ensures requests == [] && isRefreshing && chain == AwaitingRetry
    {
      var retries: seq<Config> := [];
      var i := 0;
      while i < |requests|
        invariant 0 <= i <= |requests|
        invariant retries == AuthorizeAll(requests[..i], token)
      {
        assert requests[..i + 1][..i] == requests[..i];
        retries := retries + [Authorize(requests[i], token)];
        i := i + 1;
      }
      assert requests[..i] == requests;
      retries := retries + [Authorize(chain.trigger, token)];
      requests := [];
      chain := AwaitingRetry;
      effect := Reissue(token, retries);
    }

    /** The refresh rejected: the flag is cleared and the deferred requests stay where they are. */
    method OnRefreshRejected() returns (effect: Effect)
      requires Valid() && chain.AwaitingToken?
      modifies this
      ensures Valid()
      ensures (State(), effect) == Step(old(State()), RefreshRejected)
      ensures effect == SessionLost && !isRefreshing && requests == old(requests)
    {
      isRefreshing := false;
      chain := Idle;
      effect := SessionLost;
    }

    /**
     * The re-issued trigger settled: the flag is cleared; a rejection is handled
     * like a failed refresh.
     */
    method OnRetrySettled(succeeded: bool) returns (effect: Effect)
      requires Valid() && chain.AwaitingRetry?
      modifies this
      ensures Valid()
      ensures (State(), effect) == Step(old(State()), RetrySettled(succeeded))
      ensures effect == (if succeeded then Released else SessionLost)
      ensures !isRefreshing && requests == old(requests)
    {
      isRefreshing := false;
      chain := Idle;
      effect := if succeeded then Released else SessionLost;
    }

    /**
     * What `request` does with the transport's report for the request `config`:
     * classify it, and on a 401 envelope hand over to the refresh coordination.
     */
    method Respond(config: Config, t: ResponseGate.Transport) returns (verdict: ResponseGate.Verdict, effect: Option<Effect>)
      requires Valid()
      modifies this
      ensures Valid()
      ensures verdict == ResponseGate.Classify(t)
      ensures effect.Some? <==> verdict.SessionExpired?
      ensures effect.Some? ==> (State(), effect.value) == Step(old(State()), Unauthorized(config))
      ensures effect.None? ==> State() == old(State())
    {
      verdict := ResponseGate.Classify(t);
      if verdict.SessionExpired? {
        var e := OnUnauthorized(config);
        effect := Some(e);
      } else {
        effect := None;
      }
    }
  }

  /** Two 401s in a row, then a successful refresh, from a fresh module. */
  method ScenarioTwoUnauthorized(a: Config, b: Config, token: string)
  {
    var coordinator := new RefreshCoordinator();
    var e1 := coordinator.OnUnauthorized(a);
    assert e1 == StartRefresh;
    var e2 := coordinator.OnUnauthorized(b);
    assert e2 == Deferred;
    var e3 := coordinator.OnTokenRefreshed(token);
    assert e3 == Reissue(token, [Authorize(b, token), Authorize(a, token)]);
    var e4 := coordinator.OnRetrySettled(true);
    assert e4 == Released && coordinator.State() == INITIAL;
  }
}
