/** The request executor and the operations built on it (clouddrive.go).
    The network is an oracle: for every attempt of a request, the clock
    readings and refresh answer seen by the token check, and the server's
    answer (a decoded value or a failure). */
module Drive {
  import opened Wrappers
  import opened Errors
  import opened Auth
  import opened Types
  import Text

  const DefaultMaxRetries := 5
  const EndpointBaseUrl := "https://drive.amazonaws.com/drive/v1"
  const MetadataClientMissing := "metadata client not initialized"
  const ContentClientMissing := "content client not initialized"

  /** An HTTP client bound to a service's base URL. */
  datatype Client = Client(baseUrl: string)

  /** A request body: none, an encoded value (JSON or form) that can be
      produced again, or a stream that can be read only once. */
  datatype Body = NoBody | Encoded(content: string) | Stream(name: string)

  /** A request descriptor; `headers` is None while Go's header map is nil. */
  datatype RequestData = RequestData(verb: string, path: string, params: map<string, string>,
                                     headers: Option<map<string, seq<string>>>, body: Body,
                                     expectedStatus: seq<int>)

  /** Whether the descriptor can be copied afresh for another attempt. */
  predicate CanCopy(r: RequestData)
  {
    !r.body.Stream?
  }

  /** The number of attempts `Request` allows itself. */
  function Budget(maxRetries: int, r: RequestData): int
  {
    if CanCopy(r) then maxRetries else 1
  }

  /** The descriptor with its header map created if absent and the
      Authorization header set to the bearer token; nothing else differs. */
  function Authorized(r: RequestData, token: string): (a: RequestData)
    ensures a == r.(headers := a.headers)
    ensures a.headers.Some? && "Authorization" in a.headers.value
    ensures a.headers.value["Authorization"] == ["Bearer " + token]
    ensures a.headers.value.Keys == (if r.headers.Some? then r.headers.value.Keys else {}) + {"Authorization"}
    ensures forall k :: r.headers.Some? && k in r.headers.value && k != "Authorization" ==>
              a.headers.value[k] == r.headers.value[k]
  {
    var h := if r.headers.Some? then r.headers.value else map[];
    r.(headers := Some(h["Authorization" := ["Bearer " + token]]))
  }

  /** 2 to the power `n`: the backoff ceiling, in seconds, after attempt `n`. */
  function Pow2(n: nat): (p: nat)
    ensures p >= 1
  {
    if n == 0 then 1 else 2 * Pow2(n - 1)
  }

  /** The server's answer to one request: the decoded value, or the error
      the HTTP client reports (an invalid status, a transport or decoding failure). */
  datatype ServerReply<T> = Answered(value: T) | Rejected(err: Error)

  /** What the world does during one attempt: the clock when the token is
      checked, the answer to a refresh if one is due, the clock after it,
      and the server's answer to the request. */
  datatype World<T> = World(now: int, refresh: RefreshReply, refreshedAt: int, reply: ServerReply<T>)

  /** The world's behaviour, attempt by attempt. */
  type Env<T> = nat -> World<T>

  /** The outcome of a call: a value, an error, or Go's panic("unreachable"). */
  datatype Reply<T> = Done(value: T) | Failed(err: Error) | Panicked

  /** A request as it went out, and through which client. */
  datatype Sent = Sent(client: Client, request: RequestData)

  /** The trace of a `Request` call: its outcome, the requests sent, the
      number of backoff pauses, and the token state afterwards. */
  datatype Run<T> = Run(reply: Reply<T>, sent: seq<Sent>, backoffs: nat, tokens: TokenState)

  predicate IsRateLimited(e: Error)
  {
    e.InvalidStatusError? && e.ise.got == StatusTooManyRequests
  }

  /** How one pass of the retry loop ends: the call finishes with `reply`
      (after sending `out`, if the token check let it), or a 429 with
      attempts left asks for another pass after sending `sent`. */
  datatype Pass<T> = Finish(reply: Reply<T>, out: Option<Sent>, state: TokenState) | Again(sent: Sent, state: TokenState)

  /** One pass of the retry loop (clouddrive.go:98-129) in `world`; `last`
      says no attempt is left after this one. A token failure is returned
      as it is, before anything is sent; an answer ends the call; a 429
      goes round again unless this was the last attempt; any other failure
      is normalised once. */
  function OnePass<T>(tokens: TokenState, client: Client, request: RequestData, world: World<T>,
                      decode: ErrorBodyDecoder, last: bool): (p: Pass<T>)
    ensures p.Again? <==> TokenStep(tokens, world.now, world.refresh, world.refreshedAt).result.Ok?
                          && world.reply.Rejected? && IsRateLimited(world.reply.err) && !last
    ensures p.Finish? && p.out.None? <==> TokenStep(tokens, world.now, world.refresh, world.refreshedAt).result.Err?
    ensures p.Finish? && p.reply.Done? ==> world.reply == Answered(p.reply.value)
    ensures var step := TokenStep(tokens, world.now, world.refresh, world.refreshedAt);
            && p.state == step.state
            && (p.Again? ==> p.sent == Sent(client, Authorized(request, step.result.value)))
            && (p.Finish? && p.out.Some? ==> p.out.value == Sent(client, Authorized(request, step.result.value)))
  {
    var step := TokenStep(tokens, world.now, world.refresh, world.refreshedAt);
    match step.result
    case Err(e) => Finish(Failed(e), None, step.state)
    case Ok(token) =>
      var out := Sent(client, Authorized(request, token));
      match world.reply
      case Answered(v) => Finish(Done(v), Some(out), step.state)
      case Rejected(e) =>
        if IsRateLimited(e) && !last then Again(out, step.state)
        else Finish(Failed(HandleError(e, decode)), Some(out), step.state)
  }

  /** The retry loop of clouddrive.go:92-131 from attempt `retry` on:
      one pass after another until a pass finishes the call or no attempt
      is left. */
  function Attempts<T>(tokens: TokenState, client: Client, request: RequestData, retries: int,
                       env: Env<T>, decode: ErrorBodyDecoder, retry: nat): Run<T>
    decreases retries - retry
  {
    if retries <= retry then Run(Panicked, [], 0, tokens)
    else
      match OnePass(tokens, client, request, env(retry), decode, retries <= retry + 1)
      case Finish(reply, out, state) => Run(reply, if out.Some? then [out.value] else [], 0, state)
      case Again(sent, state) =>
        var rest := Attempts(state, client, request, retries, env, decode, retry + 1);
        Run(rest.reply, [sent] + rest.sent, rest.backoffs + 1, rest.tokens)
  }

  /** A pass that ends the call ends the trace after it. */
  lemma FinishStep<T>(tokens: TokenState, client: Client, request: RequestData, retries: int, env: Env<T>,
                      decode: ErrorBodyDecoder, retry: nat, sent: seq<Sent>, reply: Reply<T>, out: Option<Sent>,
                      state: TokenState)
    requires retry < retries
    requires OnePass(tokens, client, request, env(retry), decode, retries <= retry + 1) == Finish(reply, out, state)
    ensures After(sent, retry, Attempts(tokens, client, request, retries, env, decode, retry))
            == Run(reply, if out.Some? then sent + [out.value] else sent, retry, state)
  {
    if out.None? {
      assert sent + [] == sent;
    }
  }

  /** A pass that asks for another one moves the trace on by one request
      and one pause. */
  lemma AgainStep<T>(tokens: TokenState, client: Client, request: RequestData, retries: int, env: Env<T>,
                     decode: ErrorBodyDecoder, retry: nat, sent: seq<Sent>, out: Sent, state: TokenState)
    requires retry < retries
    requires OnePass(tokens, client, request, env(retry), decode, retries <= retry + 1) == Again(out, state)
    ensures After(sent, retry, Attempts(tokens, client, request, retries, env, decode, retry))
            == After(sent + [out], retry + 1, Attempts(state, client, request, retries, env, decode, retry + 1))
  {
    var rest := Attempts(state, client, request, retries, env, decode, retry + 1);
    assert sent + ([out] + rest.sent) == sent + [out] + rest.sent;
  }

  /** Each pause after attempt i lasts less than 2^i seconds. */
  predicate PausesWithin(sleeps: seq<nat>)
  {
    forall i {:trigger sleeps[i]} :: 0 <= i < |sleeps| ==> sleeps[i] < Pow2(i)
  }

  lemma PausesExtend(sleeps: seq<nat>, seconds: nat)
    requires PausesWithin(sleeps) && seconds < Pow2(|sleeps|)
    ensures PausesWithin(sleeps + [seconds])
  {
    var longer := sleeps + [seconds];
    forall i | 0 <= i < |longer|
      ensures longer[i] < Pow2(i)
    {
      if i < |sleeps| {
        assert longer[i] == sleeps[i];
      }
    }
  }

  /** The loop panics only when it has no attempt to make; it never sends
      more requests than the attempts left, and every pause sits between
      two requests. */
  lemma {:induction false} AttemptsBounds<T>(tokens: TokenState, client: Client, request: RequestData, retries: int,
                                             env: Env<T>, decode: ErrorBodyDecoder, retry: nat)
    ensures var r := Attempts(tokens, client, request, retries, env, decode, retry);
            && (r.reply.Panicked? <==> retries <= retry)
            && |r.sent| <= (if retry < retries then retries - retry else 0)
            && r.backoffs <= |r.sent| <= r.backoffs + 1
    decreases retries - retry
  {
    if retry < retries {
      var pass := OnePass(tokens, client, request, env(retry), decode, retries <= retry + 1);
      if pass.Again? {
        AttemptsBounds(pass.state, client, request, retries, env, decode, retry + 1);
      }
    }
  }

  /** A whole `Request` call on a client with `maxRetries`. */
  function RequestRun<T>(tokens: TokenState, maxRetries: int, client: Client, request: RequestData,
                         env: Env<T>, decode: ErrorBodyDecoder): Run<T>
  {
    Attempts(tokens, client, request, Budget(maxRetries, request), env, decode, 0)
  }

  /** `MetadataRequest` / `ContentRequest`: fail without sending when the
      service's client is not initialised, otherwise `Request`. */
  function ClientRun<T>(tokens: TokenState, maxRetries: int, client: Option<Client>, missing: string,
                        request: RequestData, env: Env<T>, decode: ErrorBodyDecoder): Run<T>
  {
    if client.None? then Run(Failed(OtherError(missing)), [], 0, tokens)
    else RequestRun(tokens, maxRetries, client.value, request, env, decode)
  }

  /** A trace continued after `sent` requests and `backoffs` pauses. */
  function After<T>(sent: seq<Sent>, backoffs: nat, r: Run<T>): Run<T>
  {
    Run(r.reply, sent + r.sent, backoffs + r.backoffs, r.tokens)
  }

  /** The attempt budget: at most `MaxRetries` requests for a copyable
      descriptor, exactly one attempt for a stream; a panic exactly when a
      copyable descriptor meets `MaxRetries <= 0`. */
  lemma AttemptBudget<T>(tokens: TokenState, maxRetries: int, client: Client, request: RequestData,
                         env: Env<T>, decode: ErrorBodyDecoder)
    ensures var r := RequestRun(tokens, maxRetries, client, request, env, decode);
            && (CanCopy(request) ==> |r.sent| <= if maxRetries > 0 then maxRetries else 0)
            && (!CanCopy(request) ==> |r.sent| <= 1 && !r.reply.Panicked?)
            && (r.reply.Panicked? <==> CanCopy(request) && maxRetries <= 0)
  {
    AttemptsBounds(tokens, client, request, Budget(maxRetries, request), env, decode, 0);
  }

  /** A token failure is returned as it is, before the attempt's request is sent. */
  lemma TokenFailureReturnedAsIs<T>(tokens: TokenState, client: Client, request: RequestData, retries: int,
                                    env: Env<T>, decode: ErrorBodyDecoder, retry: nat)
    requires retry < retries
    requires TokenStep(tokens, env(retry).now, env(retry).refresh, env(retry).refreshedAt).result.Err?
    ensures var r := Attempts(tokens, client, request, retries, env, decode, retry);
            && r.reply == Failed(TokenStep(tokens, env(retry).now, env(retry).refresh, env(retry).refreshedAt).result.error)
            && r.sent == [] && r.tokens == tokens
  {
  }

  /** A failure other than a 429 is normalised once and returned after a
      single request. */
  lemma OtherFailureNotRetried<T>(tokens: TokenState, client: Client, request: RequestData, retries: int,
                                  env: Env<T>, decode: ErrorBodyDecoder, retry: nat)
    requires retry < retries
    requires RefreshSucceeds(env(retry).refresh)
    requires env(retry).reply.Rejected? && !IsRateLimited(env(retry).reply.err)
    ensures var r := Attempts(tokens, client, request, retries, env, decode, retry);
            r.reply == Failed(HandleError(env(retry).reply.err, decode)) && |r.sent| == 1 && r.backoffs == 0
  {
  }

  /** A server that answers 429 to every attempt gets exactly the attempts
      left, with a pause between each two, and the caller gets the
      normalised last answer, whose code is TOO_MANY_REQUESTS. */
  lemma PersistentRateLimit<T>(tokens: TokenState, client: Client, request: RequestData, retries: int,
                                                  env: Env<T>, decode: ErrorBodyDecoder, retry: nat)
    requires retry < retries
    requires forall i :: retry <= i < retries ==>
               RefreshSucceeds(env(i).refresh) && env(i).reply.Rejected? && IsRateLimited(env(i).reply.err)
    ensures var r := Attempts(tokens, client, request, retries, env, decode, retry);
            && |r.sent| == retries - retry && r.backoffs == retries - retry - 1
            && r.reply == Failed(HandleError(env(retries - 1).reply.err, decode))
            && r.reply.err.DriveError? && r.reply.err.cde.code == ErrorCodeTooManyRequests
  {
    RateLimitedThroughout(tokens, client, request, retries, env, decode, retry);
  }

  lemma {:induction false} RateLimitedThroughout<T>(tokens: TokenState, client: Client, request: RequestData, retries: int,
                                                    env: Env<T>, decode: ErrorBodyDecoder, retry: nat)
    requires retry < retries
    requires forall i :: retry <= i < retries ==>
               RefreshSucceeds(env(i).refresh) && env(i).reply.Rejected? && IsRateLimited(env(i).reply.err)
    ensures var r := Attempts(tokens, client, request, retries, env, decode, retry);
            && |r.sent| == retries - retry && r.backoffs == retries - retry - 1
            && r.reply == Failed(HandleError(env(retries - 1).reply.err, decode))
    decreases retries - retry
  {
    var attempt := env(retry);
    var step := TokenStep(tokens, attempt.now, attempt.refresh, attempt.refreshedAt);
    assert step.result.Ok?;
    var pass := OnePass(tokens, client, request, attempt, decode, retries <= retry + 1);
    if retry + 1 < retries {
      assert pass == Again(Sent(client, Authorized(request, step.state.accessToken)), step.state);
      RateLimitedThroughout(step.state, client, request, retries, env, decode, retry + 1);
    }
  }

  /** A server that answers 429 to the first k-1 attempts and a value to
      the k-th (within the budget) gets exactly k requests, and the caller
      gets that value. */
  lemma {:induction false} RecoversAfterRateLimits<T>(tokens: TokenState, client: Client, request: RequestData, retries: int,
                                                      env: Env<T>, decode: ErrorBodyDecoder, retry: nat, k: nat)
    requires 1 <= k && retry + k <= retries
    requires forall i :: retry <= i < retry + k ==> RefreshSucceeds(env(i).refresh)
    requires forall i :: retry <= i < retry + k - 1 ==> env(i).reply.Rejected? && IsRateLimited(env(i).reply.err)
    requires env(retry + k - 1).reply.Answered?
    ensures var r := Attempts(tokens, client, request, retries, env, decode, retry);
            r.reply == Done(env(retry + k - 1).reply.value) && |r.sent| == k && r.backoffs == k - 1
    decreases k
  {
    var attempt := env(retry);
    var step := TokenStep(tokens, attempt.now, attempt.refresh, attempt.refreshedAt);
    assert step.result.Ok?;
    if k > 1 {
      RecoversAfterRateLimits(step.state, client, request, retries, env, decode, retry + 1, k - 1);
    }
  }

  /** Every request in `sent` is `request` with some bearer token set,
      sent through `client`. */
  ghost predicate AllAuthorized(sent: seq<Sent>, client: Client, request: RequestData)
  {
    forall i :: 0 <= i < |sent| ==> sent[i].client == client && exists t :: sent[i].request == Authorized(request, t)
  }

  /** Every request that goes out is the caller's descriptor with a bearer
      token set, through the caller's client. */
  lemma {:induction false} EveryAttemptAuthorized<T>(tokens: TokenState, client: Client, request: RequestData, retries: int,
                                                     env: Env<T>, decode: ErrorBodyDecoder, retry: nat)
    ensures AllAuthorized(Attempts(tokens, client, request, retries, env, decode, retry).sent, client, request)
    decreases retries - retry
  {
    var r := Attempts(tokens, client, request, retries, env, decode, retry);
    if retry < retries {
      var attempt := env(retry);
      var step := TokenStep(tokens, attempt.now, attempt.refresh, attempt.refreshedAt);
      if step.result.Ok? {
        var first := Sent(client, Authorized(request, step.result.value));
        if attempt.reply.Rejected? && IsRateLimited(attempt.reply.err) && retry + 1 < retries {
          var rest := Attempts(step.state, client, request, retries, env, decode, retry + 1);
          EveryAttemptAuthorized(step.state, client, request, retries, env, decode, retry + 1);
          assert r.sent == [first] + rest.sent;
          forall i | 0 <= i < |r.sent|
            ensures r.sent[i].client == client && exists t :: r.sent[i].request == Authorized(request, t)
          {
            if i == 0 {
              assert r.sent[0] == first;
            } else {
              assert r.sent[i] == rest.sent[i - 1];
            }
          }
        } else {
          assert r.sent == [first];
          assert r.sent[0] == first;
        }
      }
    }
  }

  /** An error the caller gets comes from exactly one place: either the
      token check of the attempt after the last request sent failed with
      it (and left the token state alone), or the last request was rejected
      and the error is that rejection, normalised once. */
  predicate FailureExplained<T>(r: Run<T>, env: Env<T>, decode: ErrorBodyDecoder, retry: nat)
  {
    r.reply.Failed? ==>
      var k := retry + |r.sent|;
      || TokenStep(r.tokens, env(k).now, env(k).refresh, env(k).refreshedAt) == TokenOutcome(Err(r.reply.err), r.tokens)
      || (r.sent != [] && env(k - 1).reply.Rejected? && r.reply.err == HandleError(env(k - 1).reply.err, decode))
  }

  lemma {:induction false} FailureIsLastAnswerNormalised<T>(tokens: TokenState, client: Client, request: RequestData, retries: int,
                                                            env: Env<T>, decode: ErrorBodyDecoder, retry: nat)
    ensures FailureExplained(Attempts(tokens, client, request, retries, env, decode, retry), env, decode, retry)
    decreases retries - retry
  {
    if retry < retries {
      var pass := OnePass(tokens, client, request, env(retry), decode, retries <= retry + 1);
      if pass.Again? {
        FailureIsLastAnswerNormalised(pass.state, client, request, retries, env, decode, retry + 1);
        var rest := Attempts(pass.state, client, request, retries, env, decode, retry + 1);
        assert retry + |Attempts(tokens, client, request, retries, env, decode, retry).sent| == retry + 1 + |rest.sent|;
      }
    }
  }

  // ----- Node listing (clouddrive.go:257-300) -----

  /** The request for one page of a folder's children. */
  function ChildrenQuery(parentId: string, startToken: string): (q: RequestData)
    ensures q.verb == "GET" && q.path == "/nodes/" + parentId + "/children"
    ensures CanCopy(q) && q.headers.None?
    ensures ("startToken" in q.params <==> startToken != "") && q.params.Keys <= {"startToken"}
    ensures startToken != "" ==> q.params["startToken"] == startToken
  {
    RequestData("GET", "/nodes/" + parentId + "/children",
                if startToken == "" then map[] else map["startToken" := startToken],
                None, NoBody, [StatusOk])
  }

  /** The trace of a listing: its outcome (None when the modelled pages ran
      out while the server was still paging), the page requests, the
      replies to them, and the token state afterwards. */
  datatype Listing = Listing(outcome: Option<Reply<seq<Node>>>, queries: seq<RequestData>,
                             replies: seq<Reply<Nodes>>, tokens: TokenState)

  /** A page after which the listing goes on: nodes, and a next token. */
  predicate Continues(r: Reply<Nodes>)
  {
    r.Done? && |r.value.nodes| > 0 && r.value.nextToken != ""
  }

  function Prepend(nodes: seq<Node>, o: Option<Reply<seq<Node>>>): Option<Reply<seq<Node>>>
  {
    if o.Some? && o.value.Done? then Some(Done(nodes + o.value.value)) else o
  }

  /** A listing continued after earlier pages. */
  function Extend(nodes: seq<Node>, queries: seq<RequestData>, replies: seq<Reply<Nodes>>, l: Listing): Listing
  {
    Listing(Prepend(nodes, l.outcome), queries + l.queries, replies + l.replies, l.tokens)
  }

  lemma ExtendNothing(l: Listing)
    ensures Extend([], [], [], l) == l
  {
    if l.outcome.Some? && l.outcome.value.Done? {
      assert [] + l.outcome.value.value == l.outcome.value.value;
    }
    assert [] + l.queries == l.queries && [] + l.replies == l.replies;
  }

  lemma ExtendTwice(nodes: seq<Node>, queries: seq<RequestData>, replies: seq<Reply<Nodes>>,
                    more: seq<Node>, query: RequestData, reply: Reply<Nodes>, l: Listing)
    ensures Extend(nodes, queries, replies, Extend(more, [query], [reply], l))
            == Extend(nodes + more, queries + [query], replies + [reply], l)
  {
    if l.outcome.Some? && l.outcome.value.Done? {
      assert nodes + (more + l.outcome.value.value) == (nodes + more) + l.outcome.value.value;
    }
    assert queries + ([query] + l.queries) == (queries + [query]) + l.queries;
    assert replies + ([reply] + l.replies) == (replies + [reply]) + l.replies;
  }

  /** Where a page ends the listing, the trace ends with it. */
  lemma PageStop(tokens: TokenState, maxRetries: int, client: Option<Client>, parentId: string, startToken: string,
                 pages: seq<Env<Nodes>>, decode: ErrorBodyDecoder, nodes: seq<Node>, queries: seq<RequestData>,
                 replies: seq<Reply<Nodes>>, reply: Reply<Nodes>, state: TokenState)
    requires pages != []
    requires var run := ClientRun(tokens, maxRetries, client, MetadataClientMissing, ChildrenQuery(parentId, startToken),
                                  pages[0], decode);
             run.reply == reply && run.tokens == state && !Continues(reply)
    ensures Extend(nodes, queries, replies, Paging(tokens, maxRetries, client, parentId, startToken, pages, decode))
            == Listing(if reply.Done? then Some(Done(nodes + reply.value.nodes)) else Some(LastPage(reply)),
                       queries + [ChildrenQuery(parentId, startToken)], replies + [reply], state)
  {
  }

  /** `NodeChildren` from the page whose start token is `startToken`, with
      one oracle per page. */
  function Paging(tokens: TokenState, maxRetries: int, client: Option<Client>, parentId: string, startToken: string,
                  pages: seq<Env<Nodes>>, decode: ErrorBodyDecoder): Listing
    decreases |pages|
  {
    if pages == [] then Listing(None, [], [], tokens)
    else
      var query := ChildrenQuery(parentId, startToken);
      var run := ClientRun(tokens, maxRetries, client, MetadataClientMissing, query, pages[0], decode);
      if Continues(run.reply) then
        var rest := Paging(run.tokens, maxRetries, client, parentId, run.reply.value.nextToken, pages[1..], decode);
        Extend(run.reply.value.nodes, [query], [run.reply], rest)
      else
        Listing(Some(LastPage(run.reply)), [query], [run.reply], run.tokens)
  }

  /** Every reply in `replies` asked for another page. */
  predicate AllContinue(replies: seq<Reply<Nodes>>)
  {
    forall i :: 0 <= i < |replies| ==> Continues(replies[i])
  }

  /** A listing of at most `n` pages, which ran out of modelled pages
      exactly when it read all `n` of them and each asked for more. */
  predicate WithinPages(l: Listing, n: nat)
  {
    && |l.queries| == |l.replies| <= n
    && (l.outcome.None? <==> |l.replies| == n && AllContinue(l.replies))
  }

  lemma ExtendWithinPages(nodes: seq<Node>, query: RequestData, reply: Reply<Nodes>, rest: Listing, n: nat)
    requires Continues(reply) && WithinPages(rest, n)
    ensures WithinPages(Extend(nodes, [query], [reply], rest), n + 1)
  {
    var l := Extend(nodes, [query], [reply], rest);
    assert l.replies == [reply] + rest.replies;
    assert AllContinue(l.replies) <==> AllContinue(rest.replies) by {
      assert forall j :: 0 <= j < |rest.replies| ==> rest.replies[j] == l.replies[j + 1];
    }
  }

  /** A listing sends one request per page it reads, and runs out of
      modelled pages only if every page asked for more. */
  lemma {:induction false} PagingBounds(tokens: TokenState, maxRetries: int, client: Option<Client>, parentId: string,
                                        startToken: string, pages: seq<Env<Nodes>>, decode: ErrorBodyDecoder)
    ensures WithinPages(Paging(tokens, maxRetries, client, parentId, startToken, pages, decode), |pages|)
    decreases |pages|
  {
    if pages != [] {
      var query := ChildrenQuery(parentId, startToken);
      var run := ClientRun(tokens, maxRetries, client, MetadataClientMissing, query, pages[0], decode);
      if Continues(run.reply) {
        var next := run.reply.value.nextToken;
        PagingBounds(run.tokens, maxRetries, client, parentId, next, pages[1..], decode);
        ExtendWithinPages(run.reply.value.nodes, query, run.reply,
                          Paging(run.tokens, maxRetries, client, parentId, next, pages[1..], decode), |pages| - 1);
      } else {
        assert !AllContinue([run.reply]) by { assert [run.reply][0] == run.reply; }
      }
    }
  }

  /** What a listing returns when a page ends it: the nodes gathered plus
      that page's (an empty page adds nothing), or the page's error. */
  function LastPage(r: Reply<Nodes>): Reply<seq<Node>>
  {
    match r
    case Done(page) => Done(page.nodes)
    case Failed(e) => Failed(e)
    case Panicked => Panicked
  }

  /** The nodes of a sequence of successful pages, in order. */
  function ConcatPages(replies: seq<Reply<Nodes>>): seq<Node>
    requires forall i :: 0 <= i < |replies| ==> replies[i].Done?
  {
    if replies == [] then [] else replies[0].value.nodes + ConcatPages(replies[1..])
  }

  /** A successful listing is the in-order concatenation of its pages, all
      of which succeeded. */
  predicate GathersPages(l: Listing)
  {
    l.outcome.Some? && l.outcome.value.Done? ==>
      && (forall i :: 0 <= i < |l.replies| ==> l.replies[i].Done?)
      && l.outcome.value.value == ConcatPages(l.replies)
  }

  lemma ExtendGathersPages(nodes: seq<Node>, query: RequestData, reply: Reply<Nodes>, rest: Listing)
    requires reply.Done? && reply.value.nodes == nodes && GathersPages(rest)
    ensures GathersPages(Extend(nodes, [query], [reply], rest))
  {
    var l := Extend(nodes, [query], [reply], rest);
    if l.outcome.Some? && l.outcome.value.Done? {
      assert l.replies == [reply] + rest.replies;
      assert forall i :: 0 <= i < |l.replies| ==> l.replies[i].Done?;
      assert l.replies[1..] == rest.replies;
    }
  }

  lemma {:induction false} PagingConcatenates(tokens: TokenState, maxRetries: int, client: Option<Client>, parentId: string,
                                              startToken: string, pages: seq<Env<Nodes>>, decode: ErrorBodyDecoder)
    ensures GathersPages(Paging(tokens, maxRetries, client, parentId, startToken, pages, decode))
    decreases |pages|
  {
    var l := Paging(tokens, maxRetries, client, parentId, startToken, pages, decode);
    if pages != [] {
      var query := ChildrenQuery(parentId, startToken);
      var run := ClientRun(tokens, maxRetries, client, MetadataClientMissing, query, pages[0], decode);
      if Continues(run.reply) {
        var next := run.reply.value.nextToken;
        PagingConcatenates(run.tokens, maxRetries, client, parentId, next, pages[1..], decode);
        ExtendGathersPages(run.reply.value.nodes, query, run.reply,
                           Paging(run.tokens, maxRetries, client, parentId, next, pages[1..], decode));
      } else if l.outcome.Some? && l.outcome.value.Done? {
        assert l.replies[1..] == [];
      }
    }
  }

  /** The first page is asked for with `startToken` (none for ""), and
      every later page with the next token of the page before it, which
      was a non-empty page. */
  predicate FollowsTokens(l: Listing, parentId: string, startToken: string)
  {
    && |l.queries| == |l.replies|
    && (|l.queries| > 0 ==> l.queries[0] == ChildrenQuery(parentId, startToken))
    && forall i :: 0 <= i < |l.replies| - 1 ==>
         Continues(l.replies[i]) && l.queries[i + 1] == ChildrenQuery(parentId, l.replies[i].value.nextToken)
  }

  lemma ExtendFollowsTokens(nodes: seq<Node>, parentId: string, startToken: string, reply: Reply<Nodes>, rest: Listing)
    requires Continues(reply) && FollowsTokens(rest, parentId, reply.value.nextToken)
    ensures FollowsTokens(Extend(nodes, [ChildrenQuery(parentId, startToken)], [reply], rest), parentId, startToken)
  {
    var l := Extend(nodes, [ChildrenQuery(parentId, startToken)], [reply], rest);
    assert l.replies[0] == reply;
    forall i | 0 <= i < |l.replies| - 1
      ensures Continues(l.replies[i]) && l.queries[i + 1] == ChildrenQuery(parentId, l.replies[i].value.nextToken)
    {
      assert l.queries[i + 1] == rest.queries[i];
      if i > 0 {
        assert l.replies[i] == rest.replies[i - 1];
      }
    }
  }

  /** Each page request carries the token the previous page handed out. */
  lemma {:induction false} PagingFollowsTokens(tokens: TokenState, maxRetries: int, client: Option<Client>, parentId: string,
                                               startToken: string, pages: seq<Env<Nodes>>, decode: ErrorBodyDecoder)
    ensures FollowsTokens(Paging(tokens, maxRetries, client, parentId, startToken, pages, decode), parentId, startToken)
    decreases |pages|
  {
    if pages != [] {
      var query := ChildrenQuery(parentId, startToken);
      var run := ClientRun(tokens, maxRetries, client, MetadataClientMissing, query, pages[0], decode);
      if Continues(run.reply) {
        var next := run.reply.value.nextToken;
        PagingFollowsTokens(run.tokens, maxRetries, client, parentId, next, pages[1..], decode);
        ExtendFollowsTokens(run.reply.value.nodes, parentId, startToken, run.reply,
                            Paging(run.tokens, maxRetries, client, parentId, next, pages[1..], decode));
      }
    }
  }

  /** A listing that has ended did so at its last page: every page before
      it continued, that one did not, and an error or panic there is the
      listing's (the nodes gathered are discarded). */
  predicate EndsAtLastPage(l: Listing)
  {
    l.outcome.Some? ==>
      && |l.replies| > 0
      && (forall i :: 0 <= i < |l.replies| - 1 ==> Continues(l.replies[i]))
      && !Continues(l.replies[|l.replies| - 1])
      && (l.outcome.value.Failed? ==> l.replies[|l.replies| - 1] == Failed(l.outcome.value.err))
      && (l.outcome.value.Panicked? ==> l.replies[|l.replies| - 1].Panicked?)
  }

  lemma ExtendEndsAtLastPage(nodes: seq<Node>, query: RequestData, reply: Reply<Nodes>, rest: Listing)
    requires Continues(reply) && EndsAtLastPage(rest)
    ensures EndsAtLastPage(Extend(nodes, [query], [reply], rest))
  {
    var l := Extend(nodes, [query], [reply], rest);
    if l.outcome.Some? {
      assert l.replies[|l.replies| - 1] == rest.replies[|rest.replies| - 1];
      forall i | 0 <= i < |l.replies| - 1
        ensures Continues(l.replies[i])
      {
        if i > 0 {
          assert l.replies[i] == rest.replies[i - 1];
        }
      }
    }
  }

  lemma {:induction false} PagingEndsAtLastPage(tokens: TokenState, maxRetries: int, client: Option<Client>, parentId: string,
                                                startToken: string, pages: seq<Env<Nodes>>, decode: ErrorBodyDecoder)
    ensures EndsAtLastPage(Paging(tokens, maxRetries, client, parentId, startToken, pages, decode))
    decreases |pages|
  {
    if pages != [] {
      var query := ChildrenQuery(parentId, startToken);
      var run := ClientRun(tokens, maxRetries, client, MetadataClientMissing, query, pages[0], decode);
      if Continues(run.reply) {
        var next := run.reply.value.nextToken;
        PagingEndsAtLastPage(run.tokens, maxRetries, client, parentId, next, pages[1..], decode);
        ExtendEndsAtLastPage(run.reply.value.nodes, query, run.reply,
                             Paging(run.tokens, maxRetries, client, parentId, next, pages[1..], decode));
      }
    }
  }

  // ----- Lookups (clouddrive.go:148-231) -----

  /** The name escaping of clouddrive.go:203: every `"` becomes two
      backslashes. The result holds no `"`, is longer by one character per
      quote, and a name without quotes is left as it is. */
  function EscapeQuotes(name: string): (r: string)
    ensures '"' !in r
    ensures |r| == |name| + Text.Occurrences('"', name)
    ensures '"' !in name ==> r == name
  {
    if name == [] then []
    else (if name[0] == '"' then "\\\\" else [name[0]]) + EscapeQuotes(name[1..])
  }

  /** Escaping works character by character: it distributes over concatenation. */
  lemma {:induction false} EscapeQuotesConcat(a: string, b: string)
    ensures EscapeQuotes(a + b) == EscapeQuotes(a) + EscapeQuotes(b)
  {
    if a == [] {
      assert a + b == b;
    } else {
      var head := if a[0] == '"' then "\\\\" else [a[0]];
      assert (a + b)[0] == a[0] && (a + b)[1..] == a[1..] + b;
      assert EscapeQuotes(a + b) == head + EscapeQuotes(a[1..] + b);
      EscapeQuotesConcat(a[1..], b);
      assert head + (EscapeQuotes(a[1..]) + EscapeQuotes(b)) == (head + EscapeQuotes(a[1..])) + EscapeQuotes(b);
    }
  }

  /** Escaping is not injective: a quote and two backslashes look alike. */
  lemma EscapeQuotesNotInjective()
    ensures EscapeQuotes("a\"b") == EscapeQuotes("a\\\\b")
  {
  }

  /** The filter of `LookupNode`. */
  function LookupFilter(parentId: string, name: string): string
  {
    "parents:" + parentId + " AND name:" + "\"" + EscapeQuotes(name) + "\""
  }

  /** The filter holds exactly two quotes besides those of the parent id:
      the escaped name cannot close the quoted name early. */
  lemma LookupFilterQuotes(parentId: string, name: string)
    ensures Text.Occurrences('"', LookupFilter(parentId, name)) == Text.Occurrences('"', parentId) + 2
  {
    var e := EscapeQuotes(name);
    ParentsWordQuotes();
    NameWordQuotes();
    QuoteQuotes();
    Text.OccurrencesAbsent('"', e);
    var s1 := "parents:" + parentId;
    Text.OccurrencesConcat('"', "parents:", parentId);
    var s2 := s1 + " AND name:";
    Text.OccurrencesConcat('"', s1, " AND name:");
    var s3 := s2 + "\"";
    Text.OccurrencesConcat('"', s2, "\"");
    var s4 := s3 + e;
    Text.OccurrencesConcat('"', s3, e);
    Text.OccurrencesConcat('"', s4, "\"");
  }

  lemma ParentsWordQuotes()
    ensures Text.Occurrences('"', "parents:") == 0
  {
  }

  lemma NameWordQuotes()
    ensures Text.Occurrences('"', " AND name:") == 0
  {
  }

  lemma QuoteQuotes()
    ensures Text.Occurrences('"', "\"") == 1
  {
  }

  function LookupQuery(parentId: string, name: string): RequestData
  {
    RequestData("GET", "/nodes", map["filters" := LookupFilter(parentId, name)], None, NoBody, [StatusOk])
  }

  const RootQuery := RequestData("GET", "/nodes", map["filters" := "isRoot:true"], None, NoBody, [StatusOk])

  const EndpointQuery := RequestData("GET", "/account/endpoint", map[], None, NoBody, [StatusOk])

  /** `LookupNode`'s choice: no match gives (nil, false, nil), otherwise
      the first node with true; errors pass through. `Done(None)` stands
      for "not found", `Done(Some(n))` for "found n". */
  function FirstMatch(r: Reply<Nodes>): (o: Reply<Option<Node>>)
    ensures o.Done? <==> r.Done?
    ensures o.Done? ==> (o.value.None? <==> r.value.nodes == [])
    ensures o.Done? && o.value.Some? ==> o.value.value == r.value.nodes[0]
    ensures r.Failed? ==> o == Failed(r.err)
    ensures r.Panicked? ==> o.Panicked?
  {
    match r
    case Done(ns) => if |ns.nodes| == 0 then Done(None) else Done(Some(ns.nodes[0]))
    case Failed(e) => Failed(e)
    case Panicked => Panicked
  }

  /** `LookupRoot`'s choice: the first node, or ErrRootNotFound when none. */
  function RootOf(r: Reply<Nodes>): (o: Reply<Node>)
    ensures o.Done? <==> r.Done? && r.value.nodes != []
    ensures o.Done? ==> o.value == r.value.nodes[0]
    ensures r.Done? && r.value.nodes == [] ==> o == Failed(DriveError(ErrRootNotFound))
    ensures r.Failed? ==> o == Failed(r.err)
    ensures r.Panicked? ==> o.Panicked?
  {
    match r
    case Done(ns) => if |ns.nodes| == 0 then Failed(DriveError(ErrRootNotFound)) else Done(ns.nodes[0])
    case Failed(e) => Failed(e)
    case Panicked => Panicked
  }

  /** `GetEndpoint`'s check: an endpoint whose customer does not exist
      becomes ErrCustomerNotFound; anything else passes through. */
  function EndpointOf(r: Reply<Endpoint>): (o: Reply<Endpoint>)
    ensures o.Done? <==> r.Done? && r.value.customerExists
    ensures r.Done? && !r.value.customerExists ==> o == Failed(DriveError(ErrCustomerNotFound))
    ensures !(r.Done? && !r.value.customerExists) ==> o == r
  {
    if r.Done? && !r.value.customerExists then Failed(DriveError(ErrCustomerNotFound)) else r
  }

  // ----- Scenarios of the live tests (clouddrive_test.go:414-466) -----

  /** With MaxRetries 2 and a server answering every request with 429, a
      listing sends two requests and fails with TOO_MANY_REQUESTS. */
  lemma RateLimitedListing(tokens: TokenState, client: Client, parentId: string, env: Env<Nodes>, decode: ErrorBodyDecoder)
    requires forall i :: 0 <= i < 2 ==>
               RefreshSucceeds(env(i).refresh) && env(i).reply.Rejected? && IsRateLimited(env(i).reply.err)
    ensures var run := ClientRun(tokens, 2, Some(client), MetadataClientMissing, ChildrenQuery(parentId, ""), env, decode);
            var l := Paging(tokens, 2, Some(client), parentId, "", [env], decode);
            && |run.sent| == 2
            && run.reply.Failed? && run.reply.err.cde.code == ErrorCodeTooManyRequests
            && l.outcome == Some(Failed(run.reply.err))
  {
    PersistentRateLimit(tokens, client, ChildrenQuery(parentId, ""), 2, env, decode, 0);
  }

  /** With MaxRetries 3 and a server answering 429 twice and then an empty
      page, a listing sends three requests and returns no nodes. */
  lemma ListingRecoversFromRateLimit(tokens: TokenState, client: Client, parentId: string, env: Env<Nodes>, decode: ErrorBodyDecoder)
    requires forall i :: 0 <= i < 3 ==> RefreshSucceeds(env(i).refresh)
    requires forall i :: 0 <= i < 2 ==> env(i).reply.Rejected? && IsRateLimited(env(i).reply.err)
    requires env(2).reply == Answered(Nodes([], 0, ""))
    ensures var run := ClientRun(tokens, 3, Some(client), MetadataClientMissing, ChildrenQuery(parentId, ""), env, decode);
            |run.sent| == 3 && Paging(tokens, 3, Some(client), parentId, "", [env], decode).outcome == Some(Done([]))
  {
    RecoversAfterRateLimits(tokens, client, ChildrenQuery(parentId, ""), 3, env, decode, 0, 3);
  }

  /** A client of the service (clouddrive.go:22-30). Its requests consult
      and refresh the shared credentials `auth`. */
  class CloudDrive {
    const auth: CloudDriveAuth
    const endpointClient: Client
    var maxRetries: int
    var contentClient: Option<Client>
    var metadataClient: Option<Client>

    /** `NewCloudDrive`: the discovery client, the default retry limit, and
        no service clients until `InitEndpoint`. */
    constructor (auth: CloudDriveAuth)
      ensures this.auth == auth && endpointClient == Client(EndpointBaseUrl)
      ensures maxRetries == DefaultMaxRetries
      ensures contentClient.None? && metadataClient.None?
    {
      this.auth := auth;
      endpointClient := Client(EndpointBaseUrl);
      maxRetries := DefaultMaxRetries;
      contentClient := None;
      metadataClient := None;
    }

    /** `InitEndpoint`: both service clients are set, or, when either URL
        fails to parse, neither is and the parse error is returned. */
    method InitEndpoint(contentUrl: string, metadataUrl: string, parseUrl: string -> Result<string, Error>)
      returns (err: Option<Error>)
      modifies this
      ensures maxRetries == old(maxRetries)
      ensures parseUrl(contentUrl).Err? ==>
                err == Some(parseUrl(contentUrl).error)
                && contentClient == old(contentClient) && metadataClient == old(metadataClient)
      ensures parseUrl(contentUrl).Ok? && parseUrl(metadataUrl).Err? ==>
                err == Some(parseUrl(metadataUrl).error)
                && contentClient == old(contentClient) && metadataClient == old(metadataClient)
      ensures parseUrl(contentUrl).Ok? && parseUrl(metadataUrl).Ok? ==>
                err.None?
                && contentClient == Some(Client(parseUrl(contentUrl).value))
                && metadataClient == Some(Client(parseUrl(metadataUrl).value))
    {
      var content := parseUrl(contentUrl);
      if content.Err? {
        return Some(content.error);
      }
      var metadata := parseUrl(metadataUrl);
      if metadata.Err? {
        return Some(metadata.error);
      }
      contentClient := Some(Client(content.value));
      metadataClient := Some(Client(metadata.value));
      err := None;
    }

    /** `Request`: the retry loop, as specified by `RequestRun`. Besides
        the outcome it yields the requests sent, the pauses taken (each a
        whole number of seconds below 2^attempt), and the caller's
        descriptor afterwards: a stream request is used in place and keeps
        the Authorization header, a copyable one is left as it was. */
    method Request<T>(client: Client, request: RequestData, env: Env<T>, decode: ErrorBodyDecoder)
      returns (reply: Reply<T>, sent: seq<Sent>, sleeps: seq<nat>, after: RequestData)
      modifies auth
      ensures var run := RequestRun(old(auth.State()), maxRetries, client, request, env, decode);
              reply == run.reply && sent == run.sent && |sleeps| == run.backoffs && auth.State() == run.tokens
      ensures PausesWithin(sleeps)
      ensures after == if CanCopy(request) || sent == [] then request else sent[0].request
      ensures auth.Creds() == old(auth.Creds())
    {
      var retries := maxRetries;
      var canRetry := CanCopy(request);
      if !canRetry {
        retries := 1;
      }
      ghost var whole := Attempts(auth.State(), client, request, retries, env, decode, 0);
      reply, sent, sleeps, after := Panicked, [], [], request;
      var retry := 0;
      while retry < retries
        invariant retries == Budget(maxRetries, request)
        invariant 0 <= retry && (retry <= retries || retry == 0)
        invariant |sent| == retry && |sleeps| == retry
        invariant PausesWithin(sleeps)
        invariant retry > 0 ==> canRetry
        invariant after == request
        invariant auth.Creds() == old(auth.Creds())
        invariant whole == After(sent, retry, Attempts(auth.State(), client, request, retries, env, decode, retry))
        decreases retries - retry
      {
        ghost var before := auth.State();
        var outcome, out := TryOnce(client, request, env(retry), decode, retries <= retry + 1);
        ghost var previous := sent;
        if out.Some? {
          if !canRetry {
            // The caller's own descriptor went out, header and all.
            after := out.value.request;
          }
          sent := sent + [out.value];
        }
        if outcome.Some? {
          reply := outcome.value;
          FinishStep(before, client, request, retries, env, decode, retry, previous, reply, out, auth.State());
          return;
        }
        AgainStep(before, client, request, retries, env, decode, retry, previous, out.value, auth.State());
        var seconds: nat :| seconds < Pow2(retry);
        PausesExtend(sleeps, seconds);
        sleeps := sleeps + [seconds];
        retry := retry + 1;
      }
    }

    /** One pass of the retry loop, as `OnePass` specifies it: fetch a
        token, send the authorised descriptor (`out`), then either end the
        call with `reply` or ask for another pass (`reply` is None). */
    method TryOnce<T>(client: Client, request: RequestData, world: World<T>, decode: ErrorBodyDecoder, last: bool)
      returns (reply: Option<Reply<T>>, out: Option<Sent>)
      modifies auth
      ensures reply.None? ==> out.Some?
      ensures OnePass(old(auth.State()), client, request, world, decode, last)
              == if reply.Some? then Finish(reply.value, out, auth.State()) else Again(out.value, auth.State())
      ensures auth.Creds() == old(auth.Creds())
    {
      // A fresh copy when the descriptor can be copied, the caller's own otherwise.
      var current := request;
      var token, err, posted := auth.ValidToken(world.now, world.refresh, world.refreshedAt);
      if err.Some? {
        return Some(Failed(err.value)), None;
      }
      current := Authorized(current, token);
      out := Some(Sent(client, current));
      match world.reply {
        case Answered(v) =>
          reply := Some(Done(v));
        case Rejected(e) =>
          if IsRateLimited(e) && !last {
            reply := None;
          } else {
            reply := Some(Failed(HandleError(e, decode)));
          }
      }
    }

    method MetadataRequest<T>(request: RequestData, env: Env<T>, decode: ErrorBodyDecoder)
      returns (reply: Reply<T>, sent: seq<Sent>)
      modifies auth
      ensures var run := ClientRun(old(auth.State()), maxRetries, metadataClient, MetadataClientMissing, request, env, decode);
              reply == run.reply && sent == run.sent && auth.State() == run.tokens
      ensures auth.Creds() == old(auth.Creds())
    {
      if metadataClient.None? {
        return Failed(OtherError(MetadataClientMissing)), [];
      }
      var sleeps, after;
      reply, sent, sleeps, after := Request(metadataClient.value, request, env, decode);
    }

    method ContentRequest<T>(request: RequestData, env: Env<T>, decode: ErrorBodyDecoder)
      returns (reply: Reply<T>, sent: seq<Sent>)
      modifies auth
      ensures var run := ClientRun(old(auth.State()), maxRetries, contentClient, ContentClientMissing, request, env, decode);
              reply == run.reply && sent == run.sent && auth.State() == run.tokens
      ensures auth.Creds() == old(auth.Creds())
    {
      if contentClient.None? {
        return Failed(OtherError(ContentClientMissing)), [];
      }
      var sleeps, after;
      reply, sent, sleeps, after := Request(contentClient.value, request, env, decode);
    }

    /** `GetEndpoint`: one discovery request through the endpoint client. */
    method GetEndpoint(env: Env<Endpoint>, decode: ErrorBodyDecoder) returns (endpoint: Reply<Endpoint>)
      modifies auth
      ensures var run := RequestRun(old(auth.State()), maxRetries, endpointClient, EndpointQuery, env, decode);
              endpoint == EndpointOf(run.reply) && auth.State() == run.tokens
      ensures auth.Creds() == old(auth.Creds())
    {
      var reply, sent, sleeps, after := Request(endpointClient, EndpointQuery, env, decode);
      if reply.Done? && !reply.value.customerExists {
        return Failed(DriveError(ErrCustomerNotFound));
      }
      endpoint := reply;
    }

    /** `LookupRoot`: the first node matching `isRoot:true`. */
    method LookupRoot(env: Env<Nodes>, decode: ErrorBodyDecoder) returns (root: Reply<Node>)
      modifies auth
      ensures var run := ClientRun(old(auth.State()), maxRetries, metadataClient, MetadataClientMissing, RootQuery, env, decode);
              root == RootOf(run.reply) && auth.State() == run.tokens
      ensures auth.Creds() == old(auth.Creds())
    {
      var reply, sent := MetadataRequest(RootQuery, env, decode);
      match reply {
        case Done(nodes) =>
          if |nodes.nodes| == 0 {
            return Failed(DriveError(ErrRootNotFound));
          }
          root := Done(nodes.nodes[0]);
        case Failed(e) =>
          root := Failed(e);
        case Panicked =>
          root := Panicked;
      }
    }

    /** `LookupNode`: the first child of `parentId` named `name`. */
    method LookupNode(parentId: string, name: string, env: Env<Nodes>, decode: ErrorBodyDecoder)
      returns (found: Reply<Option<Node>>)
      modifies auth
      ensures var run := ClientRun(old(auth.State()), maxRetries, metadataClient, MetadataClientMissing,
                                   LookupQuery(parentId, name), env, decode);
              found == FirstMatch(run.reply) && auth.State() == run.tokens
      ensures auth.Creds() == old(auth.Creds())
    {
      var request := LookupQuery(parentId, name);
      var reply, sent := MetadataRequest(request, env, decode);
      match reply {
        case Done(nodes) =>
          if |nodes.nodes| == 0 {
            return Done(None);
          }
          found := Done(Some(nodes.nodes[0]));
        case Failed(e) =>
          found := Failed(e);
        case Panicked =>
          found := Panicked;
      }
    }

    /** `NodeChildren`: page through a folder's children, following next
        tokens, gathering the nodes; `pages[i]` is the world during the
        i-th page request. */
    method NodeChildren(parentId: string, pages: seq<Env<Nodes>>, decode: ErrorBodyDecoder)
      returns (outcome: Option<Reply<seq<Node>>>, queries: seq<RequestData>, replies: seq<Reply<Nodes>>)
      modifies auth
      ensures var l := Paging(old(auth.State()), maxRetries, metadataClient, parentId, "", pages, decode);
              outcome == l.outcome && queries == l.queries && replies == l.replies && auth.State() == l.tokens
      ensures auth.Creds() == old(auth.Creds())
    {
      ghost var whole := Paging(auth.State(), maxRetries, metadataClient, parentId, "", pages, decode);
      var nextToken := "";
      var nodes: seq<Node> := [];
      var page := 0;
      var finished := false;
      outcome, queries, replies := None, [], [];
      assert pages[0..] == pages;
      ExtendNothing(whole);
      while page < |pages|
        invariant 0 <= page <= |pages|
        invariant auth.Creds() == old(auth.Creds())
        invariant whole == Extend(nodes, queries, replies,
                                  Paging(auth.State(), maxRetries, metadataClient, parentId, nextToken, pages[page..], decode))
        decreases |pages| - page
      {
        var params := map[];
        if nextToken != "" {
          params := params["startToken" := nextToken];
        }
        var request := RequestData("GET", "/nodes/" + parentId + "/children", params, None, NoBody, [StatusOk]);
        assert request == ChildrenQuery(parentId, nextToken);
        assert pages[page..][0] == pages[page] && pages[page..][1..] == pages[page + 1..];
        ghost var before := auth.State();
        var reply, sent := MetadataRequest(request, pages[page], decode);
        ghost var queried, replied := queries, replies;
        queries, replies := queries + [request], replies + [reply];
        if !Continues(reply) {
          PageStop(before, maxRetries, metadataClient, parentId, nextToken, pages[page..], decode,
                   nodes, queried, replied, reply, auth.State());
        }
        if !reply.Done? {
          outcome := Some(LastPage(reply));
          return;
        }
        var ns := reply.value;
        if |ns.nodes| == 0 {
          assert nodes + ns.nodes == nodes;
          finished := true;
          break;
        }
        if ns.nextToken == "" {
          nodes := nodes + ns.nodes;
          finished := true;
          break;
        }
        ExtendTwice(nodes, queried, replied, ns.nodes, request, reply,
                    Paging(auth.State(), maxRetries, metadataClient, parentId, ns.nextToken, pages[page + 1..], decode));
        nodes := nodes + ns.nodes;
        nextToken := ns.nextToken;
        page := page + 1;
      }
      if finished {
        outcome := Some(Done(nodes));
      } else {
        assert pages[page..] == [] && queries + [] == queries && replies + [] == replies;
      }
    }
  }
}
