/** The HTTP interceptor and the process-wide refresh coordinator.

    `authInterceptor` attaches `Authorization: Bearer <token>` to every outgoing
    request and hands a 401 answer to `handle401Error`, which turns the 401s of
    many requests into one refresh call: the first 401 while idle raises
    `isRefreshing`, resets the published token (`refreshTokenSubject`) to null
    and starts the refresh; a 401 while refreshing subscribes to the published
    token and is replayed once a non-null token appears.

    Everything asynchronous is an event here: a request failing, the refresh
    call answering, a replay answering, and sign-in or sign-out happening
    elsewhere. `Sys` is the state those events act on: the session, storage,
    and the coordinator, whose `inflight` and `replaying` lists stand for the
    pending subscriptions that will receive the answer of a refresh call or of
    a replayed request. */
module AuthInterceptor {
  import opened Common
  import opened AuthSession

  datatype Request = Request(url: string, body: string, headers: map<string, string>)

  const AuthorizationHeader := "Authorization"
  const SessionExpiredMessage := "Sessão expirada"

  /** `addToken`: a clone of the request with the bearer header set. */
  function AddToken(req: Request, token: string): (r: Request)
    ensures r.url == req.url && r.body == req.body
    ensures r.headers.Keys == req.headers.Keys + {AuthorizationHeader}
    ensures r.headers[AuthorizationHeader] == "Bearer " + token
    ensures forall h :: h in req.headers && h != AuthorizationHeader ==> r.headers[h] == req.headers[h]
  {
    req.(headers := req.headers[AuthorizationHeader := "Bearer " + token])
  }

  /** A replay of a request that already carried a token carries only the new
      one: setting the header again overrides the earlier value. */
  lemma AddTokenOverrides(req: Request, stale: string, renewed: string)
    ensures AddToken(AddToken(req, stale), renewed) == AddToken(req, renewed)
  {
    var a := AddToken(AddToken(req, stale), renewed).headers;
    var b := AddToken(req, renewed).headers;
    assert a.Keys == b.Keys;
    assert forall h :: h in a ==> a[h] == b[h];
  }

  /** The request `authInterceptor` forwards: with the bearer header when the
      session holds a truthy token, unchanged otherwise. */
  function Outgoing(req: Request, token: Option<string>): (r: Request)
    ensures Truthy(token) ==>
      r.url == req.url && r.body == req.body
      && AuthorizationHeader in r.headers && r.headers[AuthorizationHeader] == "Bearer " + token.value
    ensures !Truthy(token) ==> r == req
  {
    if Truthy(token) then AddToken(req, token.value) else req
  }

  /** The replays released by a published token, in subscription order. */
  function ReplayAll(reqs: seq<Request>, token: string): (r: seq<Request>)
    ensures |r| == |reqs|
    ensures forall k :: 0 <= k < |reqs| ==> r[k] == AddToken(reqs[k], token)
  {
    if reqs == [] then [] else [AddToken(reqs[0], token)] + ReplayAll(reqs[1..], token)
  }

  function RemoveAt<T>(s: seq<T>, i: nat): (r: seq<T>)
    requires i < |s|
    ensures |r| == |s| - 1
  {
    s[..i] + s[i + 1..]
  }

  // ---------------------------------------------------------------------------
  // The coordinator as a transition system

  datatype Coord = Coord(
    isRefreshing: bool,
    published: Option<string>,   // the current value of refreshTokenSubject
    waiters: seq<Request>,       // requests subscribed to it, waiting for a non-null token
    inflight: seq<Request>,      // requests whose 401 started a refresh call not yet answered
    replaying: seq<Request>)     // replays sent by those requests, not yet answered

  const Idle := Coord(false, None, [], [], [])

  datatype Sys = Sys(auth: AuthState, store: Store, coord: Coord)

  /** What a request's subscriber observes as the result of an event. */
  datatype Reply =
    | Failed(error: Failure)
    | RefreshIssued(call: RefreshRequest)
    | Queued
    | Replayed(sent: seq<Request>)
    | Delivered
    | Done

  datatype Next = Next(sys: Sys, reply: Reply)

  /** `authService.logout()`. */
  function SignOut(s: Sys): Sys {
    s.(auth := SignedOut, store := Erase(s.store))
  }

  /** `handleAuthResponse(resp)`. */
  function SignIn(s: Sys, resp: AuthResponse): Sys {
    s.(auth := SignedIn(resp), store := Persist(s.store, resp))
  }

  predicate IsUnauthorized(err: Failure) {
    err.HttpFailure? && err.status == 401
  }

  /** `handle401Error` for the request `req` as it was sent. */
  function Handle401(s: Sys, req: Request): (n: Next)
    ensures n.reply.RefreshIssued? <==> !s.coord.isRefreshing && Truthy(s.auth.refreshToken)
    ensures n.reply.RefreshIssued? ==>
      Some(n.reply.call.refreshToken) == s.auth.refreshToken
      && n.sys.coord.inflight == s.coord.inflight + [req] && n.sys.coord.isRefreshing
      && n.sys.coord.published == None
    ensures s.coord.isRefreshing ==>
      n.reply == Queued && n.sys.coord.waiters == s.coord.waiters + [req]
      && n.sys.coord.(waiters := s.coord.waiters) == s.coord
      && n.sys.auth == s.auth && n.sys.store == s.store
    ensures !s.coord.isRefreshing && !Truthy(s.auth.refreshToken) ==>
      n.reply == Failed(Thrown(SessionExpiredMessage)) && n.sys.auth == SignedOut
      && !n.sys.coord.isRefreshing && n.sys.coord.published == None
      && n.sys.coord.inflight == s.coord.inflight
  {
    if !s.coord.isRefreshing then
      var c := s.coord.(isRefreshing := true, published := None);
      if !Truthy(s.auth.refreshToken) then
        Next(SignOut(s.(coord := c.(isRefreshing := false))), Failed(Thrown(SessionExpiredMessage)))
      else
        Next(s.(coord := c.(inflight := c.inflight + [req])),
             RefreshIssued(RefreshRequest(s.auth.refreshToken.value)))
    else
      Next(s.(coord := s.coord.(waiters := s.coord.waiters + [req])), Queued)
  }

  /** The `catchError` of `authInterceptor`: a 401 goes to `handle401Error`;
      any other error is re-raised unchanged and changes nothing. */
  function OnRequestError(s: Sys, sent: Request, err: Failure): (n: Next)
    ensures !IsUnauthorized(err) ==> n == Next(s, Failed(err))
  {
    if IsUnauthorized(err) then Handle401(s, sent) else Next(s, Failed(err))
  }

  /** The refresh call started by `inflight[i]` answered `resp`: the session is
      installed (inside `refreshToken()`), the flag drops, the new access token
      is published, which replays every waiter, and the request itself is
      replayed with it. */
  function OnRefreshSucceeded(s: Sys, i: nat, resp: AuthResponse): (n: Next)
    requires i < |s.coord.inflight|
    ensures n.reply.Replayed? && |n.reply.sent| == |s.coord.waiters| + 1
    ensures forall k :: 0 <= k < |s.coord.waiters| ==>
      n.reply.sent[k] == AddToken(s.coord.waiters[k], resp.accessToken)
    ensures n.reply.sent[|s.coord.waiters|] == AddToken(s.coord.inflight[i], resp.accessToken)
    ensures n.sys.coord.waiters == [] && n.sys.coord.published == Some(resp.accessToken)
    ensures !n.sys.coord.isRefreshing && n.sys.auth == SignedIn(resp)
  {
    var token := resp.accessToken;
    var replay := AddToken(s.coord.inflight[i], token);
    var c := Coord(false, Some(token), [], RemoveAt(s.coord.inflight, i), s.coord.replaying + [replay]);
    Next(SignIn(s, resp).(coord := c), Replayed(ReplayAll(s.coord.waiters, token) + [replay]))
  }

  /** The refresh call started by `inflight[i]` failed: `refreshToken()` logs
      out and re-raises, then the interceptor drops the flag, logs out again
      and fails the request with the same error. The published token stays
      null, so the waiters stay subscribed. */
  function OnRefreshFailed(s: Sys, i: nat, err: Failure): (n: Next)
    requires i < |s.coord.inflight|
    ensures n.reply == Failed(err) && n.sys.auth == SignedOut && n.sys.store == Erase(s.store)
    ensures n.sys.coord.waiters == s.coord.waiters && n.sys.coord.published == s.coord.published
    ensures !n.sys.coord.isRefreshing
  {
    var c := s.coord.(isRefreshing := false, inflight := RemoveAt(s.coord.inflight, i));
    Next(SignOut(SignOut(s)).(coord := c), Failed(err))
  }

  /** The replay `replaying[j]` answered successfully. */
  function OnReplaySucceeded(s: Sys, j: nat): (n: Next)
    requires j < |s.coord.replaying|
    ensures n.reply == Delivered && n.sys.auth == s.auth
    ensures n.sys.coord.(replaying := s.coord.replaying) == s.coord
  {
    Next(s.(coord := s.coord.(replaying := RemoveAt(s.coord.replaying, j))), Delivered)
  }

  /** The replay `replaying[j]` failed, with the `catchError` of
      `handle401Error` placed where the source has it: after the `switchMap`
      that sends the replay, so it also receives the replay's error. It drops
      the flag, whatever refresh is in flight by then, and logs out. */
  function OnReplayFailedAsWritten(s: Sys, j: nat, err: Failure): (n: Next)
    requires j < |s.coord.replaying|
    ensures n.reply == Failed(err) && n.sys.auth == SignedOut && !n.sys.coord.isRefreshing
  {
    var c := s.coord.(isRefreshing := false, replaying := RemoveAt(s.coord.replaying, j));
    Next(SignOut(s).(coord := c), Failed(err))
  }

  /** The replay `replaying[j]` failed, with the error handler covering only the
      refresh call: the error reaches the caller unchanged, is not re-entered
      into recovery, and touches no state. */
  function OnReplayFailed(s: Sys, j: nat, err: Failure): (n: Next)
    requires j < |s.coord.replaying|
    ensures n.reply == Failed(err) && n.sys.auth == s.auth && n.sys.store == s.store
    ensures n.sys.coord.(replaying := s.coord.replaying) == s.coord
  {
    Next(s.(coord := s.coord.(replaying := RemoveAt(s.coord.replaying, j))), Failed(err))
  }

  datatype Event =
    | RequestFailed(sent: Request, err: Failure)
    | RefreshSucceeded(index: nat, resp: AuthResponse)
    | RefreshFailed(index: nat, err: Failure)
    | ReplaySucceeded(index: nat)
    | ReplayFailed(index: nat, err: Failure)
    | LoggedIn(resp: AuthResponse)        // a login elsewhere in the application
    | LoggedOut                           // a logout elsewhere in the application
    | StorageChanged(shared: Store)       // the cross-tab storage notification

  /** One event, with the correction for a failed replay (`OnReplayFailed`);
      `StepAsWritten` below handles that event as the source does, and the
      two agree on every other event (`RunAgreesAsWritten`). An answer for an
      index with nothing outstanding cannot happen, and changes nothing. */
  function Step(s: Sys, e: Event): Next {
    match e
    case RequestFailed(sent, err) => OnRequestError(s, sent, err)
    case RefreshSucceeded(i, resp) =>
      if i < |s.coord.inflight| then OnRefreshSucceeded(s, i, resp) else Next(s, Done)
    case RefreshFailed(i, err) =>
      if i < |s.coord.inflight| then OnRefreshFailed(s, i, err) else Next(s, Done)
    case ReplaySucceeded(j) =>
      if j < |s.coord.replaying| then OnReplaySucceeded(s, j) else Next(s, Done)
    case ReplayFailed(j, err) =>
      if j < |s.coord.replaying| then OnReplayFailed(s, j, err) else Next(s, Done)
    case LoggedIn(resp) => Next(SignIn(s, resp), Done)
    case LoggedOut => Next(SignOut(s), Done)
    case StorageChanged(shared) => Next(s.(auth := Restore(shared), store := shared), Done)
  }

  /** The same, with a failed replay handled as the source handles it. */
  function StepAsWritten(s: Sys, e: Event): Next {
    if e.ReplayFailed? && e.index < |s.coord.replaying| then OnReplayFailedAsWritten(s, e.index, e.err)
    else Step(s, e)
  }

  datatype Trace = Trace(final: Sys, replies: seq<Reply>)

  function Run(s: Sys, es: seq<Event>): (t: Trace)
    ensures |t.replies| == |es|
    decreases |es|
  {
    if es == [] then Trace(s, [])
    else
      var n := Step(s, es[0]);
      var t := Run(n.sys, es[1..]);
      Trace(t.final, [n.reply] + t.replies)
  }

  function RunAsWritten(s: Sys, es: seq<Event>): (t: Trace)
    ensures |t.replies| == |es|
    decreases |es|
  {
    if es == [] then Trace(s, [])
    else
      var n := StepAsWritten(s, es[0]);
      var t := RunAsWritten(n.sys, es[1..]);
      Trace(t.final, [n.reply] + t.replies)
  }

  /** On event sequences without a failed replay the corrected coordinator
      and the source's coincide, so what is proved of `Run` on them holds of
      the code as written. */
  lemma {:induction false} RunAgreesAsWritten(s: Sys, es: seq<Event>)
    requires forall e | e in es :: !e.ReplayFailed?
    ensures RunAsWritten(s, es) == Run(s, es)
    decreases |es|
  {
    if es != [] {
      assert es[0] in es;
      assert StepAsWritten(s, es[0]) == Step(s, es[0]);
      forall e | e in es[1..] ensures !e.ReplayFailed? {
        assert e in es;
      }
      RunAgreesAsWritten(Step(s, es[0]).sys, es[1..]);
    }
  }

  // ---------------------------------------------------------------------------
  // At most one refresh in flight

  /** The coordinator invariant: at most one refresh call is outstanding and
      the flag says whether there is one; while refreshing, and while anyone
      waits, the published token is null. */
  predicate Inv(c: Coord) {
    |c.inflight| <= 1
    && (c.isRefreshing <==> |c.inflight| == 1)
    && (c.isRefreshing ==> c.published.None?)
    && (|c.waiters| > 0 ==> c.published.None?)
  }

  /** Every event keeps the invariant, and a refresh call is only issued when
      none is outstanding. */
  lemma StepKeepsInv(s: Sys, e: Event)
    requires Inv(s.coord)
    ensures Inv(Step(s, e).sys.coord)
    ensures Step(s, e).reply.RefreshIssued? ==> s.coord.inflight == [] && |Step(s, e).sys.coord.inflight| == 1
  {
    match e
    case RequestFailed(sent, err) =>
    case RefreshSucceeded(i, resp) =>
    case RefreshFailed(i, err) =>
    case ReplaySucceeded(j) =>
    case ReplayFailed(j, err) =>
    case LoggedIn(resp) =>
    case LoggedOut =>
    case StorageChanged(shared) =>
  }

  /** From any state satisfying the invariant (in particular the idle start),
      no sequence of events ever puts two refresh calls in flight. */
  lemma {:induction false} AtMostOneRefresh(s: Sys, es: seq<Event>)
    requires Inv(s.coord)
    ensures Inv(Run(s, es).final.coord)
    ensures |Run(s, es).final.coord.inflight| <= 1
    decreases |es|
  {
    if es != [] {
      StepKeepsInv(s, es[0]);
      AtMostOneRefresh(Step(s, es[0]).sys, es[1..]);
    }
  }

  /** A failed replay is never re-entered into recovery: it issues no refresh
      call, whichever handler is used. */
  lemma ReplayErrorNotRecovered(s: Sys, j: nat, err: Failure)
    requires j < |s.coord.replaying|
    ensures Step(s, ReplayFailed(j, err)).reply == Failed(err)
    ensures StepAsWritten(s, ReplayFailed(j, err)).reply == Failed(err)
    ensures Step(s, ReplayFailed(j, err)).sys.coord.inflight == s.coord.inflight
    ensures StepAsWritten(s, ReplayFailed(j, err)).sys.coord.inflight == s.coord.inflight
  {
  }

  // ---------------------------------------------------------------------------
  // Many requests failing with 401 together

  function Unauthorized(reqs: seq<Request>): (es: seq<Event>)
    ensures |es| == |reqs|
    ensures forall k :: 0 <= k < |reqs| ==> es[k] == RequestFailed(reqs[k], HttpFailure(401))
  {
    if reqs == [] then [] else [RequestFailed(reqs[0], HttpFailure(401))] + Unauthorized(reqs[1..])
  }

  predicate AllQueued(replies: seq<Reply>) {
    forall k :: 0 <= k < |replies| ==> replies[k] == Queued
  }

  /** While a refresh is in flight, 401s only subscribe, in arrival order. */
  lemma {:induction false} QueuedWhileRefreshing(s: Sys, reqs: seq<Request>)
    requires s.coord.isRefreshing
    ensures Run(s, Unauthorized(reqs)).final == s.(coord := s.coord.(waiters := s.coord.waiters + reqs))
    ensures AllQueued(Run(s, Unauthorized(reqs)).replies)
    decreases |reqs|
  {
    if reqs != [] {
      var es := Unauthorized(reqs);
      assert es[1..] == Unauthorized(reqs[1..]);
      var n := Handle401(s, reqs[0]);
      assert Step(s, es[0]) == n;
      var s1 := n.sys;
      assert s1 == s.(coord := s.coord.(waiters := s.coord.waiters + [reqs[0]])) && n.reply == Queued;
      QueuedWhileRefreshing(s1, reqs[1..]);
      var t := Run(s1, es[1..]);
      assert Run(s, es) == Trace(t.final, [Queued] + t.replies);
      assert s.coord.waiters + [reqs[0]] + reqs[1..] == s.coord.waiters + reqs;
    }
  }

  /** N requests failing with 401 while idle, with a refresh token held: the
      first issues the one refresh call, the other N-1 wait in arrival order,
      and the session is untouched. */
  lemma ConcurrentUnauthorized(s: Sys, reqs: seq<Request>)
    requires Inv(s.coord) && !s.coord.isRefreshing && Truthy(s.auth.refreshToken) && reqs != []
    ensures var t := Run(s, Unauthorized(reqs));
      t.replies[0] == RefreshIssued(RefreshRequest(s.auth.refreshToken.value))
      && AllQueued(t.replies[1..])
      && t.final.coord.inflight == [reqs[0]] && t.final.coord.isRefreshing
      && t.final.coord.waiters == s.coord.waiters + reqs[1..]
      && t.final.coord.published == None
      && t.final.auth == s.auth && t.final.store == s.store
  {
    var es := Unauthorized(reqs);
    assert es[1..] == Unauthorized(reqs[1..]);
    var s1 := Step(s, es[0]).sys;
    assert s.coord.inflight == [];
    QueuedWhileRefreshing(s1, reqs[1..]);
  }

  /** ... and when that refresh succeeds, each of the N requests, and every
      earlier waiter, is sent again exactly once with the new access token:
      the waiters in arrival order, then the request that started the
      refresh. */
  lemma ConcurrentUnauthorizedRecovered(s: Sys, reqs: seq<Request>, resp: AuthResponse)
    requires Inv(s.coord) && !s.coord.isRefreshing && Truthy(s.auth.refreshToken) && reqs != []
    ensures var t := Run(s, Unauthorized(reqs) + [RefreshSucceeded(0, resp)]);
      t.replies[|reqs|]
        == Replayed(ReplayAll(s.coord.waiters + reqs[1..], resp.accessToken) + [AddToken(reqs[0], resp.accessToken)])
      && t.final.auth == SignedIn(resp) && t.final.coord.waiters == []
      && !t.final.coord.isRefreshing && t.final.coord.inflight == []
  {
    var es := Unauthorized(reqs);
    ConcurrentUnauthorized(s, reqs);
    RunAppend(s, es, RefreshSucceeded(0, resp));
  }

  /** ... and when that refresh fails, the first request fails with the
      refresh error, the session is signed out and storage cleared, and the
      other N-1 stay subscribed behind a null token: they are neither replayed
      nor failed. */
  lemma ConcurrentUnauthorizedRejected(s: Sys, reqs: seq<Request>, err: Failure)
    requires Inv(s.coord) && !s.coord.isRefreshing && Truthy(s.auth.refreshToken) && reqs != []
    ensures var t := Run(s, Unauthorized(reqs) + [RefreshFailed(0, err)]);
      t.replies[|reqs|] == Failed(err)
      && t.final.auth == SignedOut && t.final.store == Erase(s.store)
      && t.final.coord.waiters == s.coord.waiters + reqs[1..]
      && t.final.coord.published == None && !t.final.coord.isRefreshing
  {
    var es := Unauthorized(reqs);
    ConcurrentUnauthorized(s, reqs);
    RunAppend(s, es, RefreshFailed(0, err));
    EraseIdempotent(s.store, AuthResponse("", "", 0, 0));
  }

  /** The three traces above contain no failed replay, so the source's
      coordinator runs them exactly as the corrected one: the N-401 results
      hold of the code as written. */
  lemma ConcurrentUnauthorizedAsWritten(s: Sys, reqs: seq<Request>, resp: AuthResponse, err: Failure)
    ensures RunAsWritten(s, Unauthorized(reqs)) == Run(s, Unauthorized(reqs))
    ensures RunAsWritten(s, Unauthorized(reqs) + [RefreshSucceeded(0, resp)])
      == Run(s, Unauthorized(reqs) + [RefreshSucceeded(0, resp)])
    ensures RunAsWritten(s, Unauthorized(reqs) + [RefreshFailed(0, err)])
      == Run(s, Unauthorized(reqs) + [RefreshFailed(0, err)])
  {
    var es := Unauthorized(reqs);
    forall e | e in es ensures e.RequestFailed? {
      var k :| 0 <= k < |es| && es[k] == e;
    }
    RunAgreesAsWritten(s, es);
    RunAgreesAsWritten(s, es + [RefreshSucceeded(0, resp)]);
    RunAgreesAsWritten(s, es + [RefreshFailed(0, err)]);
  }

  lemma {:induction false} RunAppend(s: Sys, es: seq<Event>, e: Event)
    ensures var t := Run(s, es); var n := Step(t.final, e);
      Run(s, es + [e]) == Trace(n.sys, t.replies + [n.reply])
    decreases |es|
  {
    if es == [] {
      assert es + [e] == [e];
    } else {
      assert (es + [e])[1..] == es[1..] + [e];
      RunAppend(Step(s, es[0]).sys, es[1..], e);
    }
  }

  // ---------------------------------------------------------------------------
  // The source's replay error handler breaks the single-refresh guarantee

  const R1 := Request("/v1/pets", "", map[])
  const R2 := Request("/v1/tutores", "", map[])
  const R3 := Request("/v1/pets/1", "", map[])

  /** A trace of the source's behaviour: request 1 gets a 401 and starts a
      refresh, which succeeds; request 2 gets a 401 and starts a second
      refresh; the replay of request 1 fails (its handler drops the flag and
      logs out); the page logs in again; request 3 gets a 401 and starts a
      third refresh while the second is still outstanding. */
  function OverlappingRefreshTrace(resp: AuthResponse): seq<Event> {
    [ RequestFailed(R1, HttpFailure(401)),
      RefreshSucceeded(0, resp),
      RequestFailed(R2, HttpFailure(401)),
      ReplayFailed(0, HttpFailure(401)),
      LoggedIn(resp),
      RequestFailed(R3, HttpFailure(401)) ]
  }

  /** With the handler as written, two refresh calls end up in flight at once. */
  lemma AsWrittenOverlappingRefreshes(auth: AuthState, store: Store, resp: AuthResponse)
    requires Truthy(auth.refreshToken) && resp.refreshToken != ""
    ensures |RunAsWritten(Sys(auth, store, Idle), OverlappingRefreshTrace(resp)).final.coord.inflight| == 2
    ensures !Inv(RunAsWritten(Sys(auth, store, Idle), OverlappingRefreshTrace(resp)).final.coord)
  {
    var es := OverlappingRefreshTrace(resp);
    var s0 := Sys(auth, store, Idle);
    var s1 := StepAsWritten(s0, es[0]).sys;
    assert s1.coord.inflight == [R1] && s1.coord.isRefreshing;
    var s2 := StepAsWritten(s1, es[1]).sys;
    assert s2.coord.inflight == [] && !s2.coord.isRefreshing && |s2.coord.replaying| == 1;
    assert s2.auth == SignedIn(resp);
    var s3 := StepAsWritten(s2, es[2]).sys;
    assert s3.coord.inflight == [R2] && s3.coord.isRefreshing && |s3.coord.replaying| == 1;
    var s4 := StepAsWritten(s3, es[3]).sys;
    assert s4.coord.inflight == [R2] && !s4.coord.isRefreshing;
    var s5 := StepAsWritten(s4, es[4]).sys;
    assert s5.coord == s4.coord && Truthy(s5.auth.refreshToken);
    var s6 := StepAsWritten(s5, es[5]).sys;
    assert s6.coord.inflight == [R2, R3];
    assert RunAsWritten(s5, es[5..]).final == s6;
    assert RunAsWritten(s4, es[4..]).final == s6;
    assert RunAsWritten(s3, es[3..]).final == s6;
    assert RunAsWritten(s2, es[2..]).final == s6;
    assert RunAsWritten(s1, es[1..]).final == s6;
  }

  // ---------------------------------------------------------------------------
  // The coordinator as module state shared by every call, with a failed replay
  // handled as in the corrected `Step` (`OnReplayFailed`); every other event
  // is handled as the source handles it.

  /** `isRefreshing` and `refreshTokenSubject`, with the pending
      subscriptions, as fields; each method moves them as the corrected
      `Step` does for its event. */
  class RefreshCoordinator {
    const auth: AuthService
    var isRefreshing: bool
    var published: Option<string>
    var waiters: seq<Request>
    var inflight: seq<Request>
    var replaying: seq<Request>

    function State(): Coord
      reads this
    {
      Coord(isRefreshing, published, waiters, inflight, replaying)
    }

    function Snapshot(): Sys
      reads this, auth
    {
      Sys(auth.State(), auth.store, State())
    }

    predicate Valid()
      reads this
    {
      Inv(State())
    }

    /** `isRefreshing = false` and a subject holding null. */
    constructor (auth: AuthService)
      ensures this.auth == auth && State() == Idle && Valid()
    {
      this.auth := auth;
      isRefreshing, published := false, None;
      waiters, inflight, replaying := [], [], [];
    }

    /** The outgoing side of `authInterceptor`. */
    method Intercept(req: Request) returns (sent: Request)
      ensures sent == Outgoing(req, auth.token)
    {
      var token := auth.GetToken();
      sent := req;
      if token.Some? && token.value != "" {
        sent := AddToken(req, token.value);
      }
    }

    /** The error side of `authInterceptor` for the request as it was sent. */
    method OnError(sent: Request, err: Failure) returns (reply: Reply)
      requires Valid()
      modifies this, auth
      ensures Valid()
      ensures Snapshot() == OnRequestError(old(Snapshot()), sent, err).sys
      ensures reply == OnRequestError(old(Snapshot()), sent, err).reply
    {
      if !(err.HttpFailure? && err.status == 401) {
        return Failed(err);
      }
      if !isRefreshing {
        isRefreshing := true;
        published := None;
        var rt := auth.GetRefreshToken();
        if rt.None? || rt.value == "" {
          isRefreshing := false;
          auth.Logout();
          return Failed(Thrown(SessionExpiredMessage));
        }
        var call := auth.StartRefresh();
        inflight := inflight + [sent];
        reply := RefreshIssued(call.value);
      } else {
        waiters := waiters + [sent];
        reply := Queued;
      }
    }

    /** The outstanding refresh call answered `resp`. */
    method OnRefreshAnswer(resp: AuthResponse) returns (sent: seq<Request>)
      requires Valid() && isRefreshing
      modifies this, auth
      ensures Valid()
      ensures Snapshot() == OnRefreshSucceeded(old(Snapshot()), 0, resp).sys
      ensures Replayed(sent) == OnRefreshSucceeded(old(Snapshot()), 0, resp).reply
    {
      var _ := auth.CompleteRefresh(Ok(resp));
      isRefreshing := false;
      var token := resp.accessToken;
      published := Some(token);
      var replay := AddToken(inflight[0], token);
      sent := ReplayAll(waiters, token) + [replay];
      waiters := [];
      inflight := [];
      replaying := replaying + [replay];
    }

    /** The outstanding refresh call failed with `err`. */
    method OnRefreshError(err: Failure) returns (error: Failure)
      requires Valid() && isRefreshing
      modifies this, auth
      ensures Valid()
      ensures Snapshot() == OnRefreshFailed(old(Snapshot()), 0, err).sys
      ensures Failed(error) == OnRefreshFailed(old(Snapshot()), 0, err).reply
    {
      var r := auth.CompleteRefresh(Err(err));
      isRefreshing := false;
      auth.Logout();
      inflight := [];
      error := r.error;
    }

    /** The replay `replaying[j]` answered; `outcome` is its result. */
    method OnReplayAnswer(j: nat, outcome: Option<Failure>) returns (reply: Reply)
      requires Valid() && j < |replaying|
      modifies this
      ensures Valid()
      ensures outcome.None? ==>
        Snapshot() == OnReplaySucceeded(old(Snapshot()), j).sys && reply == Delivered
      ensures outcome.Some? ==>
        Snapshot() == OnReplayFailed(old(Snapshot()), j, outcome.value).sys
        && reply == Failed(outcome.value)
    {
      replaying := RemoveAt(replaying, j);
      reply := if outcome.Some? then Failed(outcome.value) else Delivered;
    }
  }
}
