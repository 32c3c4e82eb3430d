/**
 * The publisher itself: an object holding the blog address, the credentials,
 * an HTTP session and a logged-in flag, with operations to log in, to publish
 * a post and to find the published post's address on the top page.
 */
module Poster {
  import opened Wrappers
  import opened Text
  import opened Web
  import opened Forms
  import opened Negotiation

  /** How many leading title characters identify a post on the top page. */
  const TitleKeywordLength: nat := 20

  /**
   * The address a link leads to when its text shows the title keywords: the
   * blog address joined to a site-relative `href`, an `http` `href` as it is,
   * and nothing for any other `href`.
   */
  function LinkTarget(blogUrl: string, keywords: string, link: Link): (url: Option<string>)
    ensures url.Some? <==> link.text != "" && Contains(link.text, keywords)
                           && (StartsWith(link.href.GetOr(""), "/") || StartsWith(link.href.GetOr(""), "http"))
    ensures url.Some? ==> var href := link.href.GetOr("");
              || (StartsWith(href, "/") && url.value == blogUrl + href)
              || (!StartsWith(href, "/") && StartsWith(href, "http") && url.value == href)
  {
    if link.text != "" && Contains(link.text, keywords) then
      var href := link.href.GetOr("");
      if StartsWith(href, "/") then Some(blogUrl + href)
      else if StartsWith(href, "http") then Some(href)
      else None
    else None
  }

  /** The target of the first link that has one. */
  function FirstLinkTarget(blogUrl: string, keywords: string, links: seq<Link>): Option<string>
    decreases |links|
  {
    if links == [] then None
    else if LinkTarget(blogUrl, keywords, links[0]).Some? then LinkTarget(blogUrl, keywords, links[0])
    else FirstLinkTarget(blogUrl, keywords, links[1..])
  }

  /**
   * The scan finds nothing exactly when no link qualifies; otherwise it finds
   * the target of a qualifying link all of whose predecessors were skipped.
   */
  lemma {:induction false} FirstLinkTargetIsFirst(blogUrl: string, keywords: string, links: seq<Link>)
    ensures var r := FirstLinkTarget(blogUrl, keywords, links);
            && (r.None? <==> forall i :: 0 <= i < |links| ==> LinkTarget(blogUrl, keywords, links[i]).None?)
            && (r.Some? ==> exists i :: 0 <= i < |links| && LinkTarget(blogUrl, keywords, links[i]) == r
                                     && forall j :: 0 <= j < i ==> LinkTarget(blogUrl, keywords, links[j]).None?)
    decreases |links|
  {
    if links != [] && LinkTarget(blogUrl, keywords, links[0]).None? {
      var rest := links[1..];
      FirstLinkTargetIsFirst(blogUrl, keywords, rest);
      assert forall i :: 0 < i < |links| ==> links[i] == rest[i - 1];
      if FirstLinkTarget(blogUrl, keywords, rest).Some? {
        var i :| 0 <= i < |rest| && LinkTarget(blogUrl, keywords, rest[i]) == FirstLinkTarget(blogUrl, keywords, rest)
                 && forall j :: 0 <= j < i ==> LinkTarget(blogUrl, keywords, rest[j]).None?;
        assert links[i + 1] == rest[i];
        assert forall j :: 0 <= j < i + 1 ==> LinkTarget(blogUrl, keywords, links[j]).None? by {
          forall j | 0 < j < i + 1 ensures LinkTarget(blogUrl, keywords, links[j]).None? {
            assert links[j] == rest[j - 1];
          }
        }
      }
    }
  }

  /** Scans the links in order and returns the first qualifying target. */
  method FindPostLink(blogUrl: string, keywords: string, links: seq<Link>) returns (url: Option<string>)
    ensures url == FirstLinkTarget(blogUrl, keywords, links)
  {
    var i := 0;
    while i < |links|
      invariant 0 <= i <= |links|
      invariant FirstLinkTarget(blogUrl, keywords, links) == FirstLinkTarget(blogUrl, keywords, links[i..])
    {
      assert links[i..][1..] == links[i + 1..];
      var link := links[i];
      if link.text != "" && Contains(link.text, keywords) {
        var href := link.href.GetOr("");
        if StartsWith(href, "/") {
          return Some(blogUrl + href);
        } else if StartsWith(href, "http") {
          return Some(href);
        }
      }
      i := i + 1;
    }
    return None;
  }

  /**
   * Looking for a published post: fetch the top page; only a 200 response is
   * scanned, for a link showing the first 20 characters of the post's title.
   */
  function VerifyRun(acct: Account, post: map<string, string>, server: Server, n: nat): (url: Option<string>)
    ensures url.Some? ==> StatusOk(server(n, RootRequest(acct))) && "title" in post
    ensures var page := server(n, RootRequest(acct));
            url.None? <==> !StatusOk(page) || "title" !in post
                           || forall i :: 0 <= i < |page.response.page.links| ==>
                                LinkTarget(acct.blogUrl, Take(post["title"], TitleKeywordLength), page.response.page.links[i]).None?
  {
    var page := server(n, RootRequest(acct));
    if !StatusOk(page) || "title" !in post then None
    else
      var keywords := Take(post["title"], TitleKeywordLength);
      FirstLinkTargetIsFirst(acct.blogUrl, keywords, page.response.page.links);
      FirstLinkTarget(acct.blogUrl, keywords, page.response.page.links)
  }

  class AutoPoster {
    const blogUrl: string
    const username: string
    const password: string
    const session: Session
    /** Set after the first successful login and never cleared. */
    var isLoggedIn: bool

    function Account(): Account {
      Negotiation.Account(blogUrl, username, password)
    }

    constructor (blogUrl: string, username: string, password: string, server: Server)
      ensures this.blogUrl == StripTrailingSlashes(blogUrl)
      ensures this.username == username && this.password == password
      ensures fresh(session) && session.server == server && session.sent == []
      ensures !isLoggedIn
    {
      this.blogUrl := StripTrailingSlashes(blogUrl);
      this.username := username;
      this.password := password;
      session := new Session(server);
      isLoggedIn := false;
    }

    /** Logs in, unless already logged in; on success the flag is set for good. */
    method Login() returns (ok: bool)
      modifies this`isLoggedIn, session
      ensures var step := LoginStep(Account(), old(isLoggedIn), session.server, |old(session.sent)|);
              ok == step.ok && session.sent == old(session.sent) + step.sent
      ensures isLoggedIn == (old(isLoggedIn) || ok)
    {
      if isLoggedIn {
        return true;
      }
      ghost var n := |session.sent|;
      var page := session.Send(Get(blogUrl + "/"));
      assert page == session.server(n, RootRequest(Account()));
      if Unusable(page) {
        assert LoginRun(Account(), session.server, n) == Attempt(false, [Get(blogUrl + "/")]);
        return false;
      }
      var success := TryLoginStrategies(page.response.page.form);
      assert LoginRun(Account(), session.server, n)
             == Attempt(success, [Get(blogUrl + "/")] + session.sent[n + 1..]);
      AppendRegroup(old(session.sent), [Get(blogUrl + "/")], session.sent[n + 1..]);
      if success {
        isLoggedIn := true;
      }
      ok := success;
    }

    /** The login fallback: form login when the page has a form, then AJAX, then the API, up to the first success. */
    method TryLoginStrategies(form: Option<Form>) returns (success: bool)
      modifies session
      ensures var chain := LoginFallback(Account(), form, session.server, |old(session.sent)|);
              success == chain.ok && session.sent == old(session.sent) + chain.sent
    {
      success := false;
      if form.Some? && !success {
        success := TryStandardLogin(form.value);
      }
      if !success {
        success := TryAjaxLogin();
      }
      if !success {
        success := TryApiLogin();
      }
    }

    /** Form login: the form's named inputs with the credentials, posted to the form's action. */
    method TryStandardLogin(form: Form) returns (ok: bool)
      modifies session
      ensures var a := FormLoginAttempt(Account(), form, session.server, |old(session.sent)|);
              ok == a.ok && session.sent == old(session.sent) + a.sent
    {
      var fields := CollectInputs(form.inputs);
      fields := fields["username" := username];
      fields := fields["password" := password];
      var url := ResolveAction(blogUrl, ActionOf(form));
      var response := session.Send(PostForm(url, fields));
      ok := response.Got? && !Contains(response.response.text, LoginMarker) && response.response.status == 200;
    }

    /** AJAX login: the credentials as JSON to `/ajax/login`. */
    method TryAjaxLogin() returns (ok: bool)
      modifies session
      ensures var a := AjaxLoginAttempt(Account(), session.server, |old(session.sent)|);
              ok == a.ok && session.sent == old(session.sent) + a.sent
    {
      var data := map["username" := username, "password" := password, "action" := "login"];
      var response := session.Send(PostJson(blogUrl + "/ajax/login", data));
      ok := false;
      if response.Got? && response.response.status == 200 {
        match response.response.json
        case Parsed(success) => ok := success;
        case Unparsable => ok := false;
      }
    }

    /** API login: the credentials form-encoded to `/api/auth`. */
    method TryApiLogin() returns (ok: bool)
      modifies session
      ensures var a := ApiLoginAttempt(Account(), session.server, |old(session.sent)|);
              ok == a.ok && session.sent == old(session.sent) + a.sent
    {
      var response := session.Send(PostForm(blogUrl + "/api/auth", map["user" := username, "pass" := password]));
      ok := response.Got? && response.response.status == 200;
    }

    /**
     * Publishes a post: logs in first (at no cost once logged in); with a
     * title, tries form, AJAX and API posting up to the first success.
     */
    method PostArticle(post: map<string, string>) returns (ok: bool)
      modifies this`isLoggedIn, session
      ensures var run := PublishRun(Account(), old(isLoggedIn), post, session.server, |old(session.sent)|);
              ok == run.ok && session.sent == old(session.sent) + run.sent
      ensures isLoggedIn == (old(isLoggedIn) || LoginStep(Account(), old(isLoggedIn), session.server, |old(session.sent)|).ok)
    {
      ghost var before := session.sent;
      var loggedIn := Login();
      if !loggedIn || "title" !in post {
        return false;
      }
      ghost var mid := session.sent;
      ok := TryPostStrategies(post);
      PublishSequence(Account(), old(isLoggedIn), post, session.server, before, loggedIn, mid, ok, session.sent);
    }

    /** The post fallback: form, then AJAX, then API, up to the first success. */
    method TryPostStrategies(post: map<string, string>) returns (success: bool)
      modifies session
      ensures var chain := PostFallback(Account(), post, session.server, |old(session.sent)|);
              success == chain.ok && session.sent == old(session.sent) + chain.sent
    {
      ghost var before := session.sent;
      ghost var form := FormPostAttempt(Account(), post, session.server, |before|);
      ghost var ajax := AjaxPostAttempt(Account(), post, session.server, |before| + |form.sent|);
      ghost var api := ApiPostAttempt(Account(), post, session.server, |before| + |form.sent| + |ajax.sent|);
      success := TryFormPost(post);
      if !success {
        success := TryAjaxPost(post);
        AppendRegroup(before, form.sent, ajax.sent);
      }
      if !success {
        success := TryApiPost(post);
        AppendRegroup(before, form.sent + ajax.sent, api.sent);
      }
    }

    /**
     * Form post: fetch the top page and its form, fill the form's named
     * inputs, the post text and the hashtags, and post it to the form's action.
     */
    method TryFormPost(post: map<string, string>) returns (ok: bool)
      modifies session
      ensures var a := FormPostAttempt(Account(), post, session.server, |old(session.sent)|);
              ok == a.ok && session.sent == old(session.sent) + a.sent
    {
      var page := session.Send(Get(blogUrl + "/"));
      if Unusable(page) {
        return false;
      }
      if page.response.page.form.None? {
        return false;
      }
      var form := page.response.page.form.value;
      var fields := CollectInputs(form.inputs);
      if "title" !in post || "content" !in post {
        return false;
      }
      var text := PostText(post["title"], post["content"]);
      fields := fields[TextareaKey(form) := text];
      if "hashtags" in post {
        fields := fields["hashtags" := post["hashtags"]];
        fields := fields["tags" := post["hashtags"]];
      }
      var url := ResolveAction(blogUrl, ActionOf(form));
      var response := session.Send(PostForm(url, fields));
      ok := response.Got? && response.response.status == 200;
    }

    /** AJAX post: title, text and hashtags as JSON to `/ajax/post`. */
    method TryAjaxPost(post: map<string, string>) returns (ok: bool)
      modifies session
      ensures var a := AjaxPostAttempt(Account(), post, session.server, |old(session.sent)|);
              ok == a.ok && session.sent == old(session.sent) + a.sent
    {
      if "title" !in post || "content" !in post {
        return false;
      }
      var text := PostText(post["title"], post["content"]);
      var data := map["title" := post["title"], "content" := text,
                       "hashtags" := MapGet(post, "hashtags", ""), "action" := "create_post"];
      var response := session.Send(PostJson(blogUrl + "/ajax/post", data));
      ok := false;
      if response.Got? && response.response.status == 200 {
        match response.response.json
        case Parsed(success) => ok := success;
        case Unparsable => ok := false;
      }
    }

    /** API post: title, text and tags form-encoded to `/api/posts`. */
    method TryApiPost(post: map<string, string>) returns (ok: bool)
      modifies session
      ensures var a := ApiPostAttempt(Account(), post, session.server, |old(session.sent)|);
              ok == a.ok && session.sent == old(session.sent) + a.sent
    {
      if "title" !in post || "content" !in post {
        return false;
      }
      var text := PostText(post["title"], post["content"]);
      var data := map["post_title" := post["title"], "post_content" := text,
                       "post_tags" := MapGet(post, "hashtags", "")];
      var response := session.Send(PostForm(blogUrl + "/api/posts", data));
      ok := response.Got? && (response.response.status == 200 || response.response.status == 201);
    }

    /** Looks for the published post on the top page; `None` when it cannot be found. */
    method VerifyPost(post: map<string, string>) returns (url: Option<string>)
      modifies session
      ensures url == VerifyRun(Account(), post, session.server, |old(session.sent)|)
      ensures session.sent == old(session.sent) + [RootRequest(Account())]
    {
      var page := session.Send(Get(blogUrl + "/"));
      if page.Raised? || page.response.status != 200 {
        return None;
      }
      if "title" !in post {
        return None;
      }
      var keywords := Take(post["title"], TitleKeywordLength);
      url := FindPostLink(blogUrl, keywords, page.response.page.links);
    }
  }
}
