/**
 * How the publisher negotiates with a site whose interface it does not know:
 * each operation tries a fixed, ordered list of strategies and accepts the
 * first that reports success. A strategy that raises counts as a failure.
 */
module Negotiation {
  import opened Wrappers
  import opened Text
  import opened Web
  import opened Forms

  /** The blog address (trailing slashes already stripped) and the credentials. */
  datatype Account = Account(blogUrl: string, username: string, password: string)

  /** Text whose presence in a response body means the login page came back. */
  const LoginMarker: string := "ログイン"

  /** Form login succeeds on status 200 with a body that no longer shows the login marker. */
  predicate FormLoginAccepted(o: Outcome) {
    o.Got? && o.response.status == 200 && !Contains(o.response.text, LoginMarker)
  }

  /** The AJAX strategies succeed on status 200 with a JSON body whose `success` is truthy. */
  predicate JsonSuccess(o: Outcome) {
    o.Got? && o.response.status == 200 && o.response.json == Parsed(true)
  }

  /** API login and form post succeed on status 200 alone. */
  predicate StatusOk(o: Outcome) {
    o.Got? && o.response.status == 200
  }

  /** API post succeeds on status 200 or 201. */
  predicate StatusOkOrCreated(o: Outcome) {
    o.Got? && (o.response.status == 200 || o.response.status == 201)
  }

  /** The login and post strategies, each with what it needs beyond the account. */
  datatype Strategy =
    | FormLogin(form: Form)
    | AjaxLogin
    | ApiLogin
    | FormPost(post: map<string, string>)
    | AjaxPost(post: map<string, string>)
    | ApiPost(post: map<string, string>)

  /** What one strategy (or a chain of them) did: whether it succeeded, and the requests it sent. */
  datatype Attempt = Attempt(ok: bool, sent: seq<Request>)

  /** The GET of the blog's top page. */
  function RootRequest(acct: Account): Request {
    Get(acct.blogUrl + "/")
  }

  /** The text a post is published as; `None` when the post lacks `title` or `content` (a KeyError). */
  function ComposedText(post: map<string, string>): Option<string> {
    if "title" in post && "content" in post then Some(PostText(post["title"], post["content"])) else None
  }

  /** There is a text exactly when the post has a title and content, and it never exceeds `MaxPostLength`. */
  lemma ComposedTextDefined(post: map<string, string>)
    ensures ComposedText(post).Some? <==> "title" in post && "content" in post
    ensures ComposedText(post).Some? ==> |ComposedText(post).value| <= MaxPostLength
  {
    if "title" in post && "content" in post {
      PostTextShape(post["title"], post["content"]);
    }
  }

  function FormLoginRequest(acct: Account, form: Form): Request {
    PostForm(ResolveAction(acct.blogUrl, ActionOf(form)), LoginPayload(form.inputs, acct.username, acct.password))
  }

  function AjaxLoginRequest(acct: Account): Request {
    PostJson(acct.blogUrl + "/ajax/login",
             map["username" := acct.username, "password" := acct.password, "action" := "login"])
  }

  function ApiLoginRequest(acct: Account): Request {
    PostForm(acct.blogUrl + "/api/auth", map["user" := acct.username, "pass" := acct.password])
  }

  function FormPostRequest(acct: Account, form: Form, text: string, post: map<string, string>): Request {
    PostForm(ResolveAction(acct.blogUrl, ActionOf(form)), PostPayload(form, text, post))
  }

  function AjaxPostRequest(acct: Account, text: string, post: map<string, string>): Request
    requires "title" in post
  {
    PostJson(acct.blogUrl + "/ajax/post",
             map["title" := post["title"], "content" := text,
                 "hashtags" := MapGet(post, "hashtags", ""), "action" := "create_post"])
  }

  function ApiPostRequest(acct: Account, text: string, post: map<string, string>): Request
    requires "title" in post
  {
    PostForm(acct.blogUrl + "/api/posts",
             map["post_title" := post["title"], "post_content" := text,
                 "post_tags" := MapGet(post, "hashtags", "")])
  }

  /** Form login: the form's payload posted to its action; accepted on 200 without the login marker. */
  function FormLoginAttempt(acct: Account, form: Form, server: Server, n: nat): Attempt {
    var request := FormLoginRequest(acct, form);
    Attempt(FormLoginAccepted(server(n, request)), [request])
  }

  /** AJAX login: the credentials as JSON; accepted on 200 with a truthy `success`. */
  function AjaxLoginAttempt(acct: Account, server: Server, n: nat): Attempt {
    var request := AjaxLoginRequest(acct);
    Attempt(JsonSuccess(server(n, request)), [request])
  }

  /** API login: the credentials form-encoded; accepted on 200. */
  function ApiLoginAttempt(acct: Account, server: Server, n: nat): Attempt {
    var request := ApiLoginRequest(acct);
    Attempt(StatusOk(server(n, request)), [request])
  }

  /**
   * Form post: fetch the top page; give up when that fails, the page has no
   * form or the post lacks title or content; otherwise post the filled form,
   * accepted on 200.
   */
  function FormPostAttempt(acct: Account, post: map<string, string>, server: Server, n: nat): Attempt {
    var get := RootRequest(acct);
    var page := server(n, get);
    if Unusable(page) || page.response.page.form.None? || ComposedText(post).None? then
      Attempt(false, [get])
    else
      var request := FormPostRequest(acct, page.response.page.form.value, ComposedText(post).value, post);
      Attempt(StatusOk(server(n + 1, request)), [get, request])
  }

  /** AJAX post: nothing is sent for a post without title or content; accepted on 200 with a truthy `success`. */
  function AjaxPostAttempt(acct: Account, post: map<string, string>, server: Server, n: nat): Attempt {
    if ComposedText(post).None? then Attempt(false, [])
    else
      var request := AjaxPostRequest(acct, ComposedText(post).value, post);
      Attempt(JsonSuccess(server(n, request)), [request])
  }

  /** API post: nothing is sent for a post without title or content; accepted on 200 or 201. */
  function ApiPostAttempt(acct: Account, post: map<string, string>, server: Server, n: nat): Attempt {
    if ComposedText(post).None? then Attempt(false, [])
    else
      var request := ApiPostRequest(acct, ComposedText(post).value, post);
      Attempt(StatusOkOrCreated(server(n, request)), [request])
  }

  /** One strategy run when the session has already sent `n` requests. */
  function Try(acct: Account, s: Strategy, server: Server, n: nat): (a: Attempt)
    ensures |a.sent| <= 2
    ensures !s.FormPost? ==> |a.sent| <= 1
    ensures s.FormPost? ==> a.sent != [] && a.sent[0] == RootRequest(acct)
  {
    match s
    case FormLogin(form) => FormLoginAttempt(acct, form, server, n)
    case AjaxLogin => AjaxLoginAttempt(acct, server, n)
    case ApiLogin => ApiLoginAttempt(acct, server, n)
    case FormPost(post) => FormPostAttempt(acct, post, server, n)
    case AjaxPost(post) => AjaxPostAttempt(acct, post, server, n)
    case ApiPost(post) => ApiPostAttempt(acct, post, server, n)
  }

  /**
   * No strategy succeeds unless its last request was a POST answered with
   * status 200, or 201 for the API post; a GET alone never counts.
   */
  lemma TrySucceedsOnlyOnAcceptedPost(acct: Account, s: Strategy, server: Server, n: nat)
    ensures var a := Try(acct, s, server, n);
            a.ok ==> && a.sent != [] && !a.sent[|a.sent| - 1].Get?
                     && var last := server(n + |a.sent| - 1, a.sent[|a.sent| - 1]);
                        last.Got? && (last.response.status == 200 || (s.ApiPost? && last.response.status == 201))
  {
  }

  /** A way of running strategies: the attempt a strategy makes when `n` requests were sent before it. */
  type Runner<!S> = (S, nat) -> Attempt

  /** The runner of the publisher's strategies against one site. */
  function Runs(acct: Account, server: Server): Runner<Strategy> {
    (s: Strategy, n: nat) => Try(acct, s, server, n)
  }

  /** All requests of a sequence of attempts, in order. */
  function Flatten(attempts: seq<Attempt>): seq<Request>
    decreases |attempts|
  {
    if attempts == [] then [] else attempts[0].sent + Flatten(attempts[1..])
  }

  /** The attempts a fallback chain makes: the strategies in order, stopping after the first success. */
  function Attempts<S>(run: Runner<S>, ss: seq<S>, n: nat): seq<Attempt>
    decreases |ss|
  {
    if ss == [] then []
    else
      var a := run(ss[0], n);
      if a.ok then [a] else [a] + Attempts(run, ss[1..], n + |a.sent|)
  }

  /** A fallback chain as a whole: it succeeds when its last attempt did, and sends all their requests. */
  function Chain<S>(run: Runner<S>, ss: seq<S>, n: nat): Attempt {
    var attempts := Attempts(run, ss, n);
    Attempt(attempts != [] && attempts[|attempts| - 1].ok, Flatten(attempts))
  }

  /** A chain makes at most one attempt per strategy, and at least one when it has any. */
  lemma {:induction false} AttemptsCount<S>(run: Runner<S>, ss: seq<S>, n: nat)
    ensures |Attempts(run, ss, n)| <= |ss|
    ensures ss != [] ==> Attempts(run, ss, n) != []
    decreases |ss|
  {
    if ss != [] && !run(ss[0], n).ok {
      AttemptsCount(run, ss[1..], n + |run(ss[0], n).sent|);
    }
  }

  /**
   * Every attempt but the last failed, and the chain stops before its last
   * strategy only after a success: the first success ends the chain.
   */
  lemma {:induction false} AttemptsStopAtFirstSuccess<S>(run: Runner<S>, ss: seq<S>, n: nat)
    ensures var attempts := Attempts(run, ss, n);
            && (forall i :: 0 <= i < |attempts| - 1 ==> !attempts[i].ok)
            && (|attempts| < |ss| ==> attempts != [] && attempts[|attempts| - 1].ok)
    decreases |ss|
  {
    if ss != [] {
      var a := run(ss[0], n);
      if !a.ok {
        var rest := Attempts(run, ss[1..], n + |a.sent|);
        AttemptsStopAtFirstSuccess(run, ss[1..], n + |a.sent|);
        assert Attempts(run, ss, n) == [a] + rest;
      }
    }
  }

  /**
   * The attempts are the strategies' runs in the given order, each made at the
   * point of the session that the requests of the earlier ones left.
   */
  lemma {:induction false} AttemptsInOrder<S>(run: Runner<S>, ss: seq<S>, n: nat, i: nat)
    requires i < |Attempts(run, ss, n)|
    ensures i < |ss|
    ensures var attempts := Attempts(run, ss, n);
            attempts[i] == run(ss[i], n + |Flatten(attempts[..i])|)
    decreases |ss|
  {
    AttemptsCount(run, ss, n);
    var attempts := Attempts(run, ss, n);
    var a := run(ss[0], n);
    if i == 0 {
      assert attempts[..0] == [];
    } else {
      var rest := Attempts(run, ss[1..], n + |a.sent|);
      assert attempts == [a] + rest;
      AttemptsInOrder(run, ss[1..], n + |a.sent|, i - 1);
      assert attempts[..i] == [a] + rest[..i - 1];
      assert Flatten(attempts[..i]) == a.sent + Flatten(rest[..i - 1]);
    }
  }

  /** A chain is its first attempt when that succeeds, and that attempt followed by the rest of the chain otherwise. */
  lemma ChainStep<S>(run: Runner<S>, ss: seq<S>, n: nat)
    requires ss != []
    ensures var a := run(ss[0], n);
            var rest := Chain(run, ss[1..], n + |a.sent|);
            Chain(run, ss, n) == if a.ok then a else Attempt(rest.ok, a.sent + rest.sent)
  {
    var a := run(ss[0], n);
    if !a.ok {
      var rest := Attempts(run, ss[1..], n + |a.sent|);
      var all := [a] + rest;
      assert Attempts(run, ss, n) == all;
      assert all[0] == a && all[1..] == rest;
      assert Flatten(all) == a.sent + Flatten(rest);
      assert all[|all| - 1].ok == (rest != [] && rest[|rest| - 1].ok);
    } else {
      assert Attempts(run, ss, n) == [a];
      assert Flatten([a]) == a.sent + Flatten([]);
    }
  }

  /** A chain succeeds exactly when one of its attempts did, and it sends nothing after that one. */
  lemma ChainSucceedsAtFirstSuccess<S>(run: Runner<S>, ss: seq<S>, n: nat)
    ensures var attempts := Attempts(run, ss, n);
            && (Chain(run, ss, n).ok <==> exists i :: 0 <= i < |attempts| && attempts[i].ok)
            && (forall i :: 0 <= i < |attempts| && attempts[i].ok ==> i == |attempts| - 1)
  {
    AttemptsStopAtFirstSuccess(run, ss, n);
  }

  /** The login strategies in order: the form (only when the page has one), then AJAX, then the API. */
  function LoginStrategies(form: Option<Form>): (ss: seq<Strategy>)
    ensures |ss| == if form.Some? then 3 else 2
    ensures ss[|ss| - 2] == AjaxLogin && ss[|ss| - 1] == ApiLogin
    ensures ss[0].FormLogin? <==> form.Some?
    ensures form.Some? ==> ss[0] == FormLogin(form.value)
  {
    if form.Some? then [FormLogin(form.value), AjaxLogin, ApiLogin] else [AjaxLogin, ApiLogin]
  }

  /** The post strategies in order: form, AJAX, API. */
  function PostStrategies(post: map<string, string>): seq<Strategy> {
    [FormPost(post), AjaxPost(post), ApiPost(post)]
  }

  /** A chain of two strategies, spelled out. */
  lemma ChainOfTwo<S>(run: Runner<S>, x: S, y: S, n: nat)
    ensures var a := run(x, n);
            var b := run(y, n + |a.sent|);
            Chain(run, [x, y], n) == if a.ok then a else Attempt(b.ok, a.sent + b.sent)
  {
    var a := run(x, n);
    ChainStep(run, [x, y], n);
    assert [x, y][1..] == [y];
    ChainStep(run, [y], n + |a.sent|);
    assert [y][1..] == [];
    var b := run(y, n + |a.sent|);
    assert Attempts(run, [], n + |a.sent| + |b.sent|) == [];
    assert b.sent + [] == b.sent;
  }

  /** A chain of three strategies, spelled out. */
  lemma ChainOfThree<S>(run: Runner<S>, x: S, y: S, z: S, n: nat)
    ensures var a := run(x, n);
            var b := run(y, n + |a.sent|);
            var c := run(z, n + |a.sent| + |b.sent|);
            Chain(run, [x, y, z], n)
            == if a.ok then a
               else if b.ok then Attempt(true, a.sent + b.sent)
               else Attempt(c.ok, a.sent + b.sent + c.sent)
  {
    var a := run(x, n);
    ChainStep(run, [x, y, z], n);
    assert [x, y, z][1..] == [y, z];
    ChainOfTwo(run, y, z, n + |a.sent|);
    var b := run(y, n + |a.sent|);
    var c := run(z, n + |a.sent| + |b.sent|);
    AppendRegroup(a.sent, b.sent, c.sent);
  }

  /**
   * The login fallback as the publisher writes it: form login when the page
   * has a form, AJAX login unless that succeeded, API login unless either did.
   */
  function LoginFallback(acct: Account, form: Option<Form>, server: Server, n: nat): Attempt {
    var first := if form.Some? then FormLoginAttempt(acct, form.value, server, n) else Attempt(false, []);
    if first.ok then first
    else
      var ajax := AjaxLoginAttempt(acct, server, n + |first.sent|);
      if ajax.ok then Attempt(true, first.sent + ajax.sent)
      else
        var api := ApiLoginAttempt(acct, server, n + |first.sent| + |ajax.sent|);
        Attempt(api.ok, first.sent + ajax.sent + api.sent)
  }

  /** The login fallback is the first-success chain over the login strategies, in their order. */
  lemma LoginFallbackIsChain(acct: Account, form: Option<Form>, server: Server, n: nat)
    ensures LoginFallback(acct, form, server, n) == Chain(Runs(acct, server), LoginStrategies(form), n)
  {
    if form.Some? {
      ChainOfThree(Runs(acct, server), FormLogin(form.value), AjaxLogin, ApiLogin, n);
    } else {
      ChainOfTwo(Runs(acct, server), AjaxLogin, ApiLogin, n);
      assert Attempt(false, []).sent + AjaxLoginAttempt(acct, server, n).sent == AjaxLoginAttempt(acct, server, n).sent;
    }
  }

  /** The post fallback as the publisher writes it: form, then AJAX, then API, each only when all before failed. */
  function PostFallback(acct: Account, post: map<string, string>, server: Server, n: nat): Attempt {
    var form := FormPostAttempt(acct, post, server, n);
    if form.ok then form
    else
      var ajax := AjaxPostAttempt(acct, post, server, n + |form.sent|);
      if ajax.ok then Attempt(true, form.sent + ajax.sent)
      else
        var api := ApiPostAttempt(acct, post, server, n + |form.sent| + |ajax.sent|);
        Attempt(api.ok, form.sent + ajax.sent + api.sent)
  }

  /** The post fallback is the first-success chain over the post strategies, in their order. */
  lemma PostFallbackIsChain(acct: Account, post: map<string, string>, server: Server, n: nat)
    ensures PostFallback(acct, post, server, n) == Chain(Runs(acct, server), PostStrategies(post), n)
  {
    ChainOfThree(Runs(acct, server), FormPost(post), AjaxPost(post), ApiPost(post), n);
  }

  /**
   * One login negotiation: fetch the top page; give up when that fails;
   * otherwise run the login chain on the form the page carries.
   */
  function LoginRun(acct: Account, server: Server, n: nat): (r: Attempt)
    ensures r.sent != [] && r.sent[0] == RootRequest(acct)
    ensures Unusable(server(n, RootRequest(acct))) ==> r == Attempt(false, [RootRequest(acct)])
  {
    var get := RootRequest(acct);
    var page := server(n, get);
    if Unusable(page) then Attempt(false, [get])
    else
      var chain := LoginFallback(acct, page.response.page.form, server, n + 1);
      Attempt(chain.ok, [get] + chain.sent)
  }

  /** The login step of a publish: nothing at all once logged in, a login negotiation before. */
  function LoginStep(acct: Account, loggedIn: bool, server: Server, n: nat): (r: Attempt)
    ensures loggedIn ==> r == Attempt(true, [])
  {
    if loggedIn then Attempt(true, []) else LoginRun(acct, server, n)
  }

  /**
   * Publishing a post: log in first; stop when that fails or the post has no
   * title; otherwise run the post chain.
   */
  function PublishRun(acct: Account, loggedIn: bool, post: map<string, string>, server: Server, n: nat): (r: Attempt)
    ensures var login := LoginStep(acct, loggedIn, server, n);
            && login.sent <= r.sent
            && (!login.ok || "title" !in post ==> r == Attempt(false, login.sent))
  {
    var login := LoginStep(acct, loggedIn, server, n);
    if !login.ok || "title" !in post then Attempt(false, login.sent)
    else
      var chain := PostFallback(acct, post, server, n + |login.sent|);
      Attempt(chain.ok, login.sent + chain.sent)
  }

  /**
   * Publishing as two phases: a login step that succeeds taking the trace
   * from `before` to `mid`, then the post fallback taking it from `mid` to
   * `after`, amount to the publish run from `before`.
   */
  lemma PublishSequence(acct: Account, loggedIn: bool, post: map<string, string>, server: Server,
                        before: seq<Request>, loginOk: bool, mid: seq<Request>, postOk: bool, after: seq<Request>)
    requires var step := LoginStep(acct, loggedIn, server, |before|);
             loginOk == step.ok && mid == before + step.sent
    requires loginOk && "title" in post
    requires var chain := PostFallback(acct, post, server, |mid|);
             postOk == chain.ok && after == mid + chain.sent
    ensures var run := PublishRun(acct, loggedIn, post, server, |before|);
            postOk == run.ok && after == before + run.sent
  {
    var step := LoginStep(acct, loggedIn, server, |before|);
    var chain := PostFallback(acct, post, server, |mid|);
    assert PublishRun(acct, loggedIn, post, server, |before|) == Attempt(chain.ok, step.sent + chain.sent);
    AppendRegroup(before, step.sent, chain.sent);
  }
}
