/**
 * The entry point's logic: the configuration check, the choice of the news
 * article to write about, and the full automation run that fetches news,
 * saves it, drafts a post, publishes it and records the outcome.
 *
 * The collaborators (news source, text generator, storage, publisher) are
 * functions handed in; the run returns the sequence of calls it made on
 * them, so what happens in which order, and what is never called, is part
 * of each contract.
 */
module Orchestrator {
  import opened Wrappers
  import opened Database

  /** The environment variables the system refuses to start without, in reporting order. */
  const RequiredConfig: seq<string> :=
    ["GEMINI_API_KEY", "SUPABASE_URL", "SUPABASE_KEY", "BLOG_URL", "BLOG_USERNAME", "BLOG_PASSWORD"]

  /** A variable counts as missing when it is unset or set to the empty string. */
  predicate Unset(env: map<string, string>, name: string) {
    name !in env || env[name] == ""
  }

  /** `a` is `b` with some elements dropped, the rest in their original order. */
  ghost predicate IsSubsequence<T>(a: seq<T>, b: seq<T>)
    decreases |b|
  {
    a == [] || (b != [] && (if a[0] == b[0] then IsSubsequence(a[1..], b[1..]) else IsSubsequence(a, b[1..])))
  }

  /** The names among `names` that `env` leaves unset, in the order of `names`. */
  function MissingFrom(names: seq<string>, env: map<string, string>): (missing: seq<string>)
    ensures forall v :: v in missing <==> v in names && Unset(env, v)
    ensures IsSubsequence(missing, names)
  {
    if names == [] then []
    else if Unset(env, names[0]) then [names[0]] + MissingFrom(names[1..], env)
    else MissingFrom(names[1..], env)
  }

  /** The missing required variables, as the start-up report lists them. */
  function MissingConfig(env: map<string, string>): seq<string> {
    MissingFrom(RequiredConfig, env)
  }

  /** The configuration is usable exactly when every required variable is set and not empty. */
  function CheckConfig(env: map<string, string>): (valid: bool)
    ensures valid <==> forall v :: v in RequiredConfig ==> !Unset(env, v)
  {
    var missing := MissingConfig(env);
    assert missing != [] ==> missing[0] in missing;
    missing == []
  }

  // ---------------------------------------------------------------- selection

  /**
   * The outcome of choosing an article: the chosen one, or the lookup error
   * raised by reaching an article without a title.
   */
  datatype Selection = Picked(article: Record) | MissingTitle

  /** How many recent posts are consulted to avoid repeating a topic. */
  const RecentLimit: int := 30

  /** The titles of the recently stored posts. */
  function Titles(rows: seq<Row>): set<string> {
    set r | r in rows :: r.title
  }

  /** Every article in `articles` has a title and that title was already posted. */
  ghost predicate AllPosted(articles: seq<Record>, posted: set<string>) {
    forall i :: 0 <= i < |articles| ==> TitlePosted(articles[i], posted)
  }

  /** The article has a title and that title was already posted. */
  ghost predicate TitlePosted(article: Record, posted: set<string>) {
    "title" in article && article["title"] in posted
  }

  /** A prefix is all posted exactly when its head is and the rest of it is. */
  lemma AllPostedCons(articles: seq<Record>, posted: set<string>, k: nat)
    requires 0 < k <= |articles|
    ensures AllPosted(articles[..k], posted) <==>
              TitlePosted(articles[0], posted) && AllPosted(articles[1..][..k - 1], posted)
  {
    var p := articles[..k];
    var q := articles[1..][..k - 1];
    assert forall i :: 0 <= i < k - 1 ==> q[i] == p[i + 1];
    assert p[0] == articles[0];
    if TitlePosted(articles[0], posted) && AllPosted(q, posted) {
      forall i | 0 <= i < k ensures TitlePosted(p[i], posted) {
        if i > 0 {
          assert p[i] == q[i - 1];
        }
      }
    }
  }

  /** The scan over `articles`: the first one not yet posted, else `fallback`. */
  function FirstUnposted(articles: seq<Record>, posted: set<string>, fallback: Record): Selection {
    if articles == [] then Picked(fallback)
    else if "title" !in articles[0] then MissingTitle
    else if articles[0]["title"] !in posted then Picked(articles[0])
    else FirstUnposted(articles[1..], posted, fallback)
  }

  /** The article chosen: the first whose title was not posted, else the first article, else an empty record. */
  function SelectBest(articles: seq<Record>, posted: set<string>): Selection {
    FirstUnposted(articles, posted, if articles == [] then map[] else articles[0])
  }

  lemma {:induction false} FirstUnpostedCases(articles: seq<Record>, posted: set<string>, fallback: Record)
    ensures FirstUnposted(articles, posted, fallback) == MissingTitle <==>
              exists k :: 0 <= k < |articles| && "title" !in articles[k] && AllPosted(articles[..k], posted)
    ensures forall k :: 0 <= k < |articles| && AllPosted(articles[..k], posted) &&
                        "title" in articles[k] && articles[k]["title"] !in posted ==>
              FirstUnposted(articles, posted, fallback) == Picked(articles[k])
    ensures AllPosted(articles, posted) ==> FirstUnposted(articles, posted, fallback) == Picked(fallback)
    decreases |articles|
  {
    if articles != [] {
      var rest := articles[1..];
      FirstUnpostedCases(rest, posted, fallback);
      forall k | 0 < k <= |articles|
        ensures AllPosted(articles[..k], posted) <==>
                  TitlePosted(articles[0], posted) && AllPosted(rest[..k - 1], posted)
      {
        AllPostedCons(articles, posted, k);
      }
      if AllPosted(articles, posted) {
        assert forall i :: 0 <= i < |rest| ==> rest[i] == articles[i+1];
        assert AllPosted(rest, posted);
      }
      if "title" in articles[0] && articles[0]["title"] in posted {
        if FirstUnposted(rest, posted, fallback) == MissingTitle {
          var k :| 0 <= k < |rest| && "title" !in rest[k] && AllPosted(rest[..k], posted);
          assert articles[k+1] == rest[k];
          assert AllPosted(articles[..k+1], posted);
        }
      } else {
        assert AllPosted(articles[..0], posted);
        if "title" !in articles[0] {
          forall k | 0 <= k < |articles| && AllPosted(articles[..k], posted)
            ensures "title" !in articles[k]
          {
            assert k == 0;
          }
        }
      }
    }
  }

  /**
   * The selection, characterised: it fails exactly when an article without a
   * title is reached before any unposted one; otherwise it picks the first
   * article whose title was not posted, or, when all were, the first article
   * (an empty record for an empty list). A picked article of a non-empty list
   * always has a title, so printing its title cannot fail.
   */
  lemma SelectBestSpec(articles: seq<Record>, posted: set<string>)
    ensures SelectBest(articles, posted) == MissingTitle <==>
              exists k :: 0 <= k < |articles| && "title" !in articles[k] && AllPosted(articles[..k], posted)
    ensures forall k :: 0 <= k < |articles| && AllPosted(articles[..k], posted) &&
                        "title" in articles[k] && articles[k]["title"] !in posted ==>
              SelectBest(articles, posted) == Picked(articles[k])
    ensures AllPosted(articles, posted) ==>
              SelectBest(articles, posted) == Picked(if articles == [] then map[] else articles[0])
    ensures articles != [] && SelectBest(articles, posted).Picked? ==> "title" in SelectBest(articles, posted).article
  {
    var fallback := if articles == [] then map[] else articles[0];
    FirstUnpostedCases(articles, posted, fallback);
    if articles != [] && SelectBest(articles, posted).Picked? {
      var s := SelectBest(articles, posted);
      if !AllPosted(articles, posted) {
        FirstMismatch(articles, posted);
      }
    }
  }

  /** When not every article is a posted, titled one, there is a first that is not. */
  lemma FirstMismatch(articles: seq<Record>, posted: set<string>)
    requires !AllPosted(articles, posted)
    ensures exists k :: 0 <= k < |articles| && AllPosted(articles[..k], posted) &&
                        !("title" in articles[k] && articles[k]["title"] in posted)
  {
    var k := 0;
    while AllPosted(articles[..k+1], posted)
      invariant 0 <= k < |articles|
      invariant AllPosted(articles[..k], posted)
      decreases |articles| - k
    {
      assert articles[..k+1][k] == articles[k];
      if k + 1 == |articles| {
        assert false;
      }
      k := k + 1;
    }
    assert articles[..k+1][k] == articles[k];
    assert forall i :: 0 <= i < k ==> articles[..k+1][i] == articles[..k][i];
  }

  /** Chooses the article to write about, given the recent posts the storage returned. */
  method SelectBestArticle(articles: seq<Record>, recent: seq<Row>) returns (s: Selection)
    ensures s == SelectBest(articles, Titles(recent))
  {
    var posted := set r | r in recent :: r.title;
    var fallback: Record := if articles == [] then map[] else articles[0];
    var i := 0;
    while i < |articles|
      invariant 0 <= i <= |articles|
      invariant SelectBest(articles, posted) == FirstUnposted(articles[i..], posted, fallback)
    {
      assert articles[i..][1..] == articles[i+1..];
      if "title" !in articles[i] {
        return MissingTitle;
      }
      if articles[i]["title"] !in posted {
        return Picked(articles[i]);
      }
      i := i + 1;
    }
    return Picked(fallback);
  }

  // ------------------------------------------------------------ full run

  /** How many news articles a run asks for. */
  const NewsLimit: int := 5

  const NewsFailedMessage: string := "ニュース収集に失敗"
  const DraftFailedMessage: string := "原稿保存に失敗"
  const PostSucceededMessage: string := "投稿成功"
  const PostFailedMessage: string := "投稿失敗"
  const FailedStatus: string := "failed"

  /** A call the run makes on one of its collaborators. */
  datatype Call =
    | FetchNews(limit: int)
    | SaveLog(level: string, message: string, details: Option<map<string, Detail>>)
    | SaveNews(article: Record)
    | RecentPosts(limit: int)
    | Generate(topic: Record, maxLength: int)
    | SavePost(post: Record)
    | Publish(post: Record)
    | Verify(post: Record)
    | UpdateStatus(postId: int, status: string, blogUrl: Option<string>)

  /** What each collaborator answers. */
  datatype Collaborators = Collaborators(
    news: int -> seq<Record>,
    recentPosts: int -> seq<Row>,
    generate: (Record, int) -> Record,
    savePost: Record -> Option<int>,
    publish: Record -> bool,
    verify: Record -> Option<string>)

  /** A run either finishes with a verdict or ends with an uncaught lookup error. */
  datatype RunOutcome = Finished(ok: bool) | Crashed

  /** A stored draft's id that the run treats as no id at all: none, or zero. */
  predicate FalsyId(id: Option<int>) {
    id.None? || id.value == 0
  }

  /** One save call per fetched article, in fetch order. */
  function SaveAll(articles: seq<Record>): (calls: seq<Call>)
    ensures |calls| == |articles|
    ensures forall i :: 0 <= i < |articles| ==> calls[i] == SaveNews(articles[i])
  {
    if articles == [] then [] else [SaveNews(articles[0])] + SaveAll(articles[1..])
  }

  /** The calls up to and including the recent-post query: fetch, save every article, query. */
  function Preamble(articles: seq<Record>): seq<Call> {
    [FetchNews(NewsLimit)] + SaveAll(articles) + [RecentPosts(RecentLimit)]
  }

  /** The number of status updates in a trace. */
  function StatusUpdates(calls: seq<Call>): (n: nat)
    ensures n <= |calls|
  {
    if calls == [] then 0 else (if calls[0].UpdateStatus? then 1 else 0) + StatusUpdates(calls[1..])
  }

  lemma {:induction false} StatusUpdatesAppend(a: seq<Call>, b: seq<Call>)
    ensures StatusUpdates(a + b) == StatusUpdates(a) + StatusUpdates(b)
    decreases |a|
  {
    if a != [] {
      assert (a + b)[0] == a[0];
      assert (a + b)[1..] == a[1..] + b;
      StatusUpdatesAppend(a[1..], b);
    } else {
      assert a + b == b;
    }
  }

  lemma {:induction false} NoStatusUpdates(calls: seq<Call>)
    requires forall i :: 0 <= i < |calls| ==> !calls[i].UpdateStatus?
    ensures StatusUpdates(calls) == 0
    decreases |calls|
  {
    if calls != [] {
      NoStatusUpdates(calls[1..]);
    }
  }

  lemma PreambleShape(articles: seq<Record>)
    ensures |Preamble(articles)| == |articles| + 2
    ensures StatusUpdates(Preamble(articles)) == 0
    ensures forall c :: c in Preamble(articles) ==> !c.Publish? && !c.UpdateStatus?
  {
    var p := Preamble(articles);
    forall i | 0 <= i < |p| ensures !p[i].Publish? && !p[i].UpdateStatus? {
      if 0 < i < |p| - 1 {
        assert p[i] == SaveAll(articles)[i-1];
      }
    }
    NoStatusUpdates(p);
  }

  /**
   * The full automation run. Without news it logs the failure and stops.
   * Otherwise it saves every fetched article before choosing one, drafts a
   * post on the chosen article and stores it; a draft that was not stored
   * (no id, or id zero) is logged and nothing is published. A stored draft
   * is published; on success the post's address is looked up and the draft
   * is marked published with it, on failure it is marked failed, and either
   * way the outcome is logged with the draft's id.
   */
  method RunFullAutomation(c: Collaborators, maxLength: int) returns (outcome: RunOutcome, calls: seq<Call>)
    ensures var articles := c.news(NewsLimit);
            articles == [] ==>
              outcome == Finished(false) && calls == [FetchNews(NewsLimit), SaveLog("ERROR", NewsFailedMessage, None)]
    ensures var articles := c.news(NewsLimit);
            var selection := SelectBest(articles, Titles(c.recentPosts(RecentLimit)));
            articles != [] ==>
              && Preamble(articles) <= calls
              && (selection.MissingTitle? ==> outcome == Crashed && calls == Preamble(articles))
    ensures var articles := c.news(NewsLimit);
            var selection := SelectBest(articles, Titles(c.recentPosts(RecentLimit)));
            articles != [] && selection.Picked? ==>
              var post := c.generate(selection.article, maxLength);
              var drafted := [Generate(selection.article, maxLength), SavePost(post)];
              var id := c.savePost(post);
              && (FalsyId(id) ==>
                   outcome == Finished(false) && calls == Preamble(articles) + (drafted + [SaveLog("ERROR", DraftFailedMessage, None)]))
              && (!FalsyId(id) && c.publish(post) ==>
                   var url := c.verify(post).GetOr("");
                   outcome == Finished(true) &&
                   calls == Preamble(articles) +
                            (drafted + [Publish(post), Verify(post), UpdateStatus(id.value, PublishedStatus, Some(url)),
                                        SaveLog("INFO", PostSucceededMessage, Some(map["post_id" := DInt(id.value), "url" := DStr(url)]))]))
              && (!FalsyId(id) && !c.publish(post) ==>
                   outcome == Finished(false) &&
                   calls == Preamble(articles) +
                            (drafted + [Publish(post), UpdateStatus(id.value, FailedStatus, None),
                                        SaveLog("ERROR", PostFailedMessage, Some(map["post_id" := DInt(id.value)]))]))
    ensures StatusUpdates(calls) == (if exists p :: p in calls && p.Publish? then 1 else 0)
    ensures outcome == Finished(true) <==> exists u :: u in calls && u.UpdateStatus? && u.status == PublishedStatus
  {
    var articles := c.news(NewsLimit);
    if articles == [] {
      calls := [FetchNews(NewsLimit), SaveLog("ERROR", NewsFailedMessage, None)];
      NoStatusUpdates(calls);
      return Finished(false), calls;
    }
    calls := SaveArticles(articles);
    PreambleShape(articles);
    var recent := c.recentPosts(RecentLimit);
    var selection := SelectBestArticle(articles, recent);
    if selection.MissingTitle? {
      return Crashed, calls;
    }
    var pre := calls;
    var tail;
    outcome, tail := DraftAndPublish(c, selection.article, maxLength);
    PrefixWithoutPublishing(pre, tail);
    calls := pre + tail;
  }

  /** The fetch call, one save call per fetched article in fetch order, then the recent-post query. */
  method SaveArticles(articles: seq<Record>) returns (calls: seq<Call>)
    ensures calls == Preamble(articles)
  {
    calls := [FetchNews(NewsLimit)];
    for i := 0 to |articles|
      invariant calls == [FetchNews(NewsLimit)] + SaveAll(articles[..i])
    {
      SaveAllSnoc(articles, i);
      calls := calls + [SaveNews(articles[i])];
    }
    assert articles[..|articles|] == articles;
    calls := calls + [RecentPosts(RecentLimit)];
  }

  /** A prefix that neither publishes nor updates a status changes nothing the run reports on. */
  lemma PrefixWithoutPublishing(pre: seq<Call>, tail: seq<Call>)
    requires StatusUpdates(pre) == 0
    requires forall c :: c in pre ==> !c.Publish? && !c.UpdateStatus?
    ensures StatusUpdates(pre + tail) == StatusUpdates(tail)
    ensures (exists p :: p in pre + tail && p.Publish?) <==> (exists p :: p in tail && p.Publish?)
    ensures (exists u :: u in pre + tail && u.UpdateStatus? && u.status == PublishedStatus)
            <==> (exists u :: u in tail && u.UpdateStatus? && u.status == PublishedStatus)
  {
    StatusUpdatesAppend(pre, tail);
  }

  /**
   * The steps after an article was chosen: draft a post on it, store the
   * draft, and publish a stored draft, recording the outcome.
   */
  method DraftAndPublish(c: Collaborators, target: Record, maxLength: int) returns (outcome: RunOutcome, tail: seq<Call>)
    ensures var post := c.generate(target, maxLength);
            var drafted := [Generate(target, maxLength), SavePost(post)];
            var id := c.savePost(post);
            && (FalsyId(id) ==>
                 outcome == Finished(false) && tail == drafted + [SaveLog("ERROR", DraftFailedMessage, None)])
            && (!FalsyId(id) && c.publish(post) ==>
                 var url := c.verify(post).GetOr("");
                 outcome == Finished(true) &&
                 tail == drafted + [Publish(post), Verify(post), UpdateStatus(id.value, PublishedStatus, Some(url)),
                                    SaveLog("INFO", PostSucceededMessage, Some(map["post_id" := DInt(id.value), "url" := DStr(url)]))])
            && (!FalsyId(id) && !c.publish(post) ==>
                 outcome == Finished(false) &&
                 tail == drafted + [Publish(post), UpdateStatus(id.value, FailedStatus, None),
                                    SaveLog("ERROR", PostFailedMessage, Some(map["post_id" := DInt(id.value)]))])
    ensures StatusUpdates(tail) == (if exists p :: p in tail && p.Publish? then 1 else 0)
    ensures outcome == Finished(true) <==> exists u :: u in tail && u.UpdateStatus? && u.status == PublishedStatus
  {
    var post := c.generate(target, maxLength);
    var drafted := [Generate(target, maxLength), SavePost(post)];
    NoStatusUpdates(drafted);
    var postId := c.savePost(post);
    if postId.None? || postId.value == 0 {
      tail := drafted + [SaveLog("ERROR", DraftFailedMessage, None)];
      NoStatusUpdates(tail);
      return Finished(false), tail;
    }
    var rest;
    outcome, rest := PublishDraft(c, post, postId.value);
    PrefixWithoutPublishing(drafted, rest);
    tail := drafted + rest;
  }

  /**
   * Publishing a stored draft: on success the post's address is looked up
   * and the draft marked published with it, on failure the draft is marked
   * failed; either way the outcome is logged with the draft's id.
   */
  method PublishDraft(c: Collaborators, post: Record, id: int) returns (outcome: RunOutcome, calls: seq<Call>)
    ensures c.publish(post) ==>
              var url := c.verify(post).GetOr("");
              outcome == Finished(true) &&
              calls == [Publish(post), Verify(post), UpdateStatus(id, PublishedStatus, Some(url)),
                        SaveLog("INFO", PostSucceededMessage, Some(map["post_id" := DInt(id), "url" := DStr(url)]))]
    ensures !c.publish(post) ==>
              outcome == Finished(false) &&
              calls == [Publish(post), UpdateStatus(id, FailedStatus, None),
                        SaveLog("ERROR", PostFailedMessage, Some(map["post_id" := DInt(id)]))]
    ensures StatusUpdates(calls) == 1 && Publish(post) in calls
    ensures outcome == Finished(true) <==> exists u :: u in calls && u.UpdateStatus? && u.status == PublishedStatus
  {
    calls := Then([], Publish(post));
    if c.publish(post) {
      calls := Then(calls, Verify(post));
      var url := c.verify(post).GetOr("");
      calls := Then(calls, UpdateStatus(id, PublishedStatus, Some(url)));
      calls := Then(calls, SaveLog("INFO", PostSucceededMessage, Some(map["post_id" := DInt(id), "url" := DStr(url)])));
      outcome := Finished(true);
    } else {
      calls := Then(calls, UpdateStatus(id, FailedStatus, None));
      calls := Then(calls, SaveLog("ERROR", PostFailedMessage, Some(map["post_id" := DInt(id)])));
      outcome := Finished(false);
    }
  }

  /**
   * Proof aid for building traces call by call: a trace extended by one
   * call (the first `ensures` just names the extension), with the count of
   * status updates carried along so that callers need not unfold it.
   */
  function Then(calls: seq<Call>, next: Call): (r: seq<Call>)
    ensures r == calls + [next]
    ensures StatusUpdates(r) == StatusUpdates(calls) + (if next.UpdateStatus? then 1 else 0)
  {
    StatusUpdatesAppend(calls, [next]);
    assert [next][1..] == [];
    calls + [next]
  }

  lemma SaveAllSnoc(articles: seq<Record>, i: nat)
    requires i < |articles|
    ensures SaveAll(articles[..i+1]) == SaveAll(articles[..i]) + [SaveNews(articles[i])]
  {
    var l := SaveAll(articles[..i+1]);
    var r := SaveAll(articles[..i]) + [SaveNews(articles[i])];
    assert |l| == |r|;
    forall k | 0 <= k < |l| ensures l[k] == r[k] {
      if k < i {
        assert articles[..i+1][k] == articles[..i][k];
      }
    }
  }
}
