# ai-auto-blog: a verified model of the publishing core

The system fetches AI news. It drafts a blog post on one article, stores the
draft, and publishes the draft to a blog whose interface it does not know in
advance. This project models three parts of it in Dafny and proves their
contracts:

- **The publisher (`AutoPoster`).** It logs in to the blog and posts to it. For
  each of those it tries a fixed, ordered list of strategies: an HTML form,
  then an AJAX endpoint, then an API endpoint. It accepts the first strategy
  that succeeds and counts a strategy that raises as a failure. Afterwards it
  looks for the published post's link on the blog's top page.
- **The storage layer (`DatabaseManager`).** The rows it writes for news
  articles, drafts, status changes and log entries, and what each storage
  operation reports back.
- **The entry point (`AutoAIBlogSystem`).** The configuration check, the choice
  of topic, and the full automation run.

The blog is modelled as a function `Server` from a request, and the number of
requests the session sent before it, to the outcome: an exception, or a
response. The response carries the status code, the body text, the JSON
`success` flag, the page's first form and its links. The `Session` class
records every request sent. So each publisher method's contract fixes both
its result and the exact requests it sent, which means nothing else was sent.

Working on the same session, the publisher's methods are proved against
definitions that take no heap:

- `FormLoginAttempt`, `AjaxLoginAttempt`, `ApiLoginAttempt`,
  `FormPostAttempt`, `AjaxPostAttempt` and `ApiPostAttempt` are the single
  strategies. `Try` picks one of them by its `Strategy` tag.
- `LoginFallback` and `PostFallback` are the fallback chains as the code
  writes them.
- `LoginRun`, `PublishRun` and `VerifyRun` are whole operations.

Each fallback chain is also proved equal to a generic first-success
`Chain` over the ordered strategy list. The ordering and stopping rules are
proved once, for every chain.

The storage service and the entry point's collaborators (news source, text
generator, storage, publisher) are functions passed in. The full run returns
the sequence of calls it made on them. Clock readings are parameters.

Modules follow the program: `Wrappers` (option type), `Text` (string rules),
`Web` (the HTTP and HTML abstractions, and the session), `Forms` (form
payloads), `Negotiation` (strategies and chains), `Poster` (the `AutoPoster`
class), `Database` and `Orchestrator`.

Two details of the code matter here:

- The top-page fetch of login and of form posting fails only for status 400
  to 599 and for exceptions. This is the rule the HTTP client's
  `raise_for_status` applies; other non-2xx statuses pass. The post lookup
  does not call it and scans the top page only when it answered 200.
- The composed post text is `title + "\n\n" + content`, two characters longer
  than title and content together. It is cut to 497 characters plus `"..."`
  when longer than 500.

## Model

| member | source | states |
|---|---|---|
| Text.Contains | auto_poster.py:97 | The substring test: true exactly when the text occurs at some position. |
| Text.StripTrailingSlashes | auto_poster.py:19 | The result is a prefix of the address and does not end in `/`. Every character removed was a `/`. |
| Text.ResolveActionJoins | auto_poster.py:88-92 | The target is the base, one `/`, then the action without its leading `/`. It always starts with base + `/`, and its length is fixed by the inputs. |
| Text.Take | auto_poster.py:285 | A slice of the first `n` characters: a prefix of length `min(n, len)`. |
| Text.TruncatedBounds | auto_poster.py:200-201 | At most 500 characters. Unchanged exactly when the input is at most 500. Otherwise exactly 500 characters, the first 497 of the input, then `...`. |
| Text.PostTextShape | auto_poster.py:199-201 | Length is `min(len(title) + 2 + len(content), 500)`. Equals title, blank line, content when that fits. Otherwise ends in `...`. Always starts with the first 497 characters of the title. |
| Web.Unusable | auto_poster.py:38-39 | A GET of the top page is unusable when it raised or `raise_for_status` would raise, i.e. status 400 to 599 (also at auto_poster.py:180-181). |
| Web.Session.constructor | auto_poster.py:22 | A new session has sent nothing. |
| Web.Session.Send | auto_poster.py:38 | Sending appends the request to the session's record. The outcome is the site's answer to it at that position. |
| Forms.NamedInputsKeys | auto_poster.py:76-81 | A key is copied exactly when it is non-empty and some input has that name. |
| Forms.NamedInputsValues | auto_poster.py:76-81 | A copied key holds the value of the last input with that name (`""` when that input has none). |
| Forms.CollectInputs | auto_poster.py:76-81 | The loop over the inputs builds exactly the copied-inputs map. |
| Forms.LoginPayloadFields | auto_poster.py:76-85 | The keys are the copied inputs plus `username` and `password`. Those two hold the credentials. Every other copied input keeps its value. |
| Forms.PostPayloadFields | auto_poster.py:191-211 | The keys are the copied inputs, the textarea's name (or `content`), plus `hashtags` and `tags` exactly when the post has hashtags. Both hold the post's hashtags, the text key holds the post text, and other inputs keep their values. |
| Negotiation.ComposedTextDefined | auto_poster.py:199-201 | A text exists exactly when the post has a title and content; otherwise there is a lookup error. Its length is at most 500. |
| Negotiation.FormLoginAccepted | auto_poster.py:97 | Form login is accepted on status 200 when the body no longer contains the login marker `ログイン`. |
| Negotiation.JsonSuccess | auto_poster.py:115-117 | An AJAX strategy (login here, post at auto_poster.py:244-246) is accepted on status 200 when the JSON body's `success` is truthy. |
| Negotiation.StatusOk | auto_poster.py:136 | API login (and form post, auto_poster.py:221) is accepted on status 200 alone. |
| Negotiation.StatusOkOrCreated | auto_poster.py:270 | API post is accepted on status 200 or 201. |
| Negotiation.FormLoginAttempt | auto_poster.py:72-101 | Form login sends one POST of the form's payload to its resolved action, and succeeds exactly when that answer is accepted. |
| Negotiation.AjaxLoginAttempt | auto_poster.py:103-123 | AJAX login sends one JSON POST of the credentials to `/ajax/login`, and succeeds exactly on a 200 with truthy `success`. |
| Negotiation.ApiLoginAttempt | auto_poster.py:125-140 | API login sends one form-encoded POST of `user` and `pass` to `/api/auth`, and succeeds exactly on 200. |
| Negotiation.FormPostAttempt | auto_poster.py:175-225 | Form post GETs the top page and gives up when that is unusable, has no form, or the post lacks title or content. Otherwise it POSTs the filled form and succeeds exactly on 200. |
| Negotiation.AjaxPostAttempt | auto_poster.py:227-252 | AJAX post sends nothing for a post without title or content. Otherwise it sends one JSON POST and succeeds exactly on a 200 with truthy `success`. |
| Negotiation.ApiPostAttempt | auto_poster.py:254-274 | API post sends nothing for a post without title or content. Otherwise it sends one POST and succeeds exactly on 200 or 201. |
| Negotiation.Try | auto_poster.py:72-274 | One strategy sends at most two requests, and only the form post sends two. The form post always starts with the GET of the top page. |
| Negotiation.TrySucceedsOnlyOnAcceptedPost | auto_poster.py:97-270 | A strategy succeeds only if its last request was a POST answered with 200, or 201 for the API post. |
| Negotiation.AttemptsCount | auto_poster.py:45-58 | A chain makes at most one attempt per strategy, and at least one when it has any. |
| Negotiation.AttemptsStopAtFirstSuccess | auto_poster.py:45-58 | Every attempt but the last failed. A chain that stops early stopped on a success. |
| Negotiation.AttemptsInOrder | auto_poster.py:45-58 | The i-th attempt is the i-th strategy, run after the requests of the attempts before it. |
| Negotiation.ChainStep | auto_poster.py:45-58 | A chain is its first attempt when that succeeds. Otherwise it is that attempt followed by the rest of the chain. |
| Negotiation.ChainSucceedsAtFirstSuccess | auto_poster.py:45-58 | A chain succeeds exactly when one attempt succeeded, and that attempt is the last one made. |
| Negotiation.LoginStrategies | auto_poster.py:47-58 | The form login is first exactly when the page has a form. AJAX, then API, always end the list. |
| Negotiation.ChainOfTwo | auto_poster.py:52-58 | A two-strategy chain spelled out: the second runs only after the first failed. |
| Negotiation.ChainOfThree | auto_poster.py:150-162 | A three-strategy chain spelled out: each strategy runs only after all before it failed. |
| Negotiation.LoginFallback | auto_poster.py:45-58 | The login if-chain: form login when the page has a form, then AJAX, then API. Each runs only after all before it failed, each after the requests of those before it. The result is the last attempt's. |
| Negotiation.PostFallback | auto_poster.py:150-162 | The post if-chain: form, then AJAX, then API posting, with the same first-success rule. |
| Negotiation.LoginFallbackIsChain | auto_poster.py:45-58 | The login code's if-chain is the first-success chain over the login strategies. |
| Negotiation.PostFallbackIsChain | auto_poster.py:150-162 | The post code's if-chain is the first-success chain over form, AJAX and API posting. |
| Negotiation.LoginRun | auto_poster.py:33-70 | Login always starts with the GET of the top page. When that raises or has an error status, it fails and sends nothing else. |
| Negotiation.LoginStep | auto_poster.py:30-31 | Once logged in, the login step succeeds and sends nothing. |
| Negotiation.PublishRun | auto_poster.py:142-173 | Publishing starts with the login step. When login fails or the post has no title, it fails and sends nothing more. |
| Negotiation.PublishSequence | auto_poster.py:144-162 | A successful login step followed by the post chain, on a titled post, is exactly one publish run: the same result and the requests of both phases in order. |
| Poster.LinkTarget | auto_poster.py:287-292 | A link qualifies only if its text is non-empty and contains the keywords. An href starting with `/` gives blog + href. An href starting with `http` gives the href. Anything else is skipped. |
| Poster.FirstLinkTargetIsFirst | auto_poster.py:286-294 | The result is the target of the first qualifying link, and no earlier link qualifies. It is `None` exactly when no link qualifies. |
| Poster.FindPostLink | auto_poster.py:286-294 | The scan over the links with early return yields exactly the first qualifying target. |
| Poster.VerifyRun | auto_poster.py:276-298 | A link is found exactly when the top page answered 200, the post has a title, and some link qualifies for the title's first 20 characters. |
| Poster.AutoPoster.constructor | auto_poster.py:18-26 | The stored address has its trailing slashes stripped. The session is new and has sent nothing, and the publisher is not logged in. |
| Poster.AutoPoster.Login | auto_poster.py:28-70 | Result and requests are those of the login step from the current state: when already logged in it returns true and sends nothing, otherwise it runs one login negotiation. The flag becomes true exactly on success and is never cleared. |
| Poster.AutoPoster.TryLoginStrategies | auto_poster.py:45-58 | Runs the login fallback: result and requests are the chain's. |
| Poster.AutoPoster.TryStandardLogin | auto_poster.py:72-101 | Form login: result and request are those of the form-login strategy. |
| Poster.AutoPoster.TryAjaxLogin | auto_poster.py:103-123 | AJAX login: result and request are those of the AJAX-login strategy. |
| Poster.AutoPoster.TryApiLogin | auto_poster.py:125-140 | API login: result and request are those of the API-login strategy. |
| Poster.AutoPoster.PostArticle | auto_poster.py:142-173 | Result and requests are those of one publish run from the current login state. The flag is set exactly when it was set or the login step succeeded. |
| Poster.AutoPoster.TryPostStrategies | auto_poster.py:150-162 | Runs the post fallback: result and requests are the chain's. |
| Poster.AutoPoster.TryFormPost | auto_poster.py:175-225 | Form post: result and requests are those of the form-post strategy. |
| Poster.AutoPoster.TryAjaxPost | auto_poster.py:227-252 | AJAX post: result and request are those of the AJAX-post strategy. |
| Poster.AutoPoster.TryApiPost | auto_poster.py:254-274 | API post: result and request are those of the API-post strategy. |
| Poster.AutoPoster.VerifyPost | auto_poster.py:276-298 | Sends exactly one GET of the top page, and the result is the link lookup on the answer. |
| Database.NewsRecord | database.py:47-54 | The news row has exactly six columns. Title, url, summary and source are copied, `""` when missing. The publication time defaults to the clock reading. |
| Database.SaveNewsArticle | database.py:55-64 | True exactly when the insert returned rows. False on an exception. |
| Database.GeneratedPostRecord | database.py:67-74 | The draft row has exactly six columns, status `generated`. The copied fields are `""` when missing, and the generation time defaults to the clock reading. |
| Database.SaveGeneratedPost | database.py:75-84 | The id of the first returned row. `None` when no rows came back or the insert raised. |
| Database.UpdatePostStatus | database.py:86-107 | The changes always hold the status and update time. The blog URL appears exactly when given and non-empty. The publication time appears exactly for status `published`. No other key. The result reports whether the update returned rows. |
| Database.GetRecentPosts | database.py:112-124 | The rows the query returned, or none when it raised. |
| Database.SystemLogEntry | database.py:172-184 | Level, message and time are kept. Details are serialised exactly when given and non-empty. |
| Orchestrator.MissingFrom | main.py:108 | Names exactly the required variables that are unset or empty, in the order of the list. |
| Orchestrator.CheckConfig | main.py:75-112 | The configuration is accepted exactly when every required variable is set and non-empty. |
| Orchestrator.FirstUnpostedCases | main.py:119-122 | The scan fails exactly when a title-less article comes before any unposted one. It picks the first unposted article, or the fallback when all are posted. |
| Orchestrator.SelectBestSpec | main.py:114-122 | Picks the first article whose title is not among the recent titles. When all titles are recent it picks the first article, or an empty record for no articles. It fails on a title-less article reached first. A pick from a non-empty list always has a title. |
| Orchestrator.SelectBestArticle | main.py:114-122 | The loop with early return picks exactly the specified article against the recent posts' titles. |
| Orchestrator.FalsyId | main.py:151 | `if not post_id`: a missing id and id 0 both count as no stored draft. |
| Orchestrator.SaveAll | main.py:139-140 | One save call per fetched article, in fetch order. |
| Orchestrator.RunFullAutomation | main.py:127-168 | Covers every path: no news logs an error and returns false; all articles are saved before selection; a title-less article aborts; a draft without id returns false without publishing; otherwise publish, then mark the draft published with the link (or `""`) and return true, or mark it failed and return false. There is exactly one status update when and only when a publish was attempted. The run returns true exactly when a `published` update was made. |
| Orchestrator.DraftAndPublish | main.py:147-168 | Draft, store, publish and record: the same paths as the full run, from the chosen article on. |
| Orchestrator.PublishDraft | main.py:156-168 | A stored draft is published. On success the post's address is looked up and the draft marked published with it; on failure it is marked failed. The outcome is logged with the draft's id, and exactly one status update is made. |
| Orchestrator.SaveArticles | main.py:133-145 | The fetch, one save call per fetched article in fetch order, then the recent-post query that the selection makes (main.py:116). |
| Orchestrator.PrefixWithoutPublishing | main.py:127-168 | Calls before the draft, which neither publish nor update a status, change neither the number of status updates nor whether a publish or a `published` update occurs. |

## Left out

- Sessions: the HTTP headers, timeouts and transport are not modelled. Only the outcome of each request, as given by the site function, is.
- The site's answers are a function of the request and its position in the session. Any other dependence (time, other clients) is outside the model.
- HTML parsing: only the first form (its inputs, its first textarea and its action) and the links are modelled, as given lists. So `soup.find('form')` is the page's optional form.
- JSON decoding: a body is either unparsable or decodes to the truthiness of its `success` member (false when absent), which is all the code looks at. The member's own value is not modelled.
- The storage service's client calls: every storage operation is one abstract reply, either an exception or the rows returned. The model reads only the `id` and `title` columns of returned rows.
- Database.GetRecentPosts: the order of the returned rows (newest first) is the storage's and is not modelled.
- Database.SaveGeneratedPost: a first row without an `id` column (a lookup error caught as `None`) cannot occur, because rows always carry an id.
- Database.SystemLogEntry: the JSON text of the details and the insert's result are not modelled. The insert's errors are swallowed and return nothing.
- The clock: every timestamp is a parameter.
- Environment loading: the configuration is a map from name to value.
- `get_system_stats`, `test_system`, `show_dashboard`, the command line `main`, `sys.exit` and the fallback collaborator classes are outside the modelled core. So is the module's self-test block.
- Reading `MAX_CONTENT_LENGTH` and printing are not modelled. The maximum length is a parameter of the run.
- Orchestrator.RunFullAutomation: an exception raised by a collaborator is not modelled. A recent post without a `title` is not modelled either, because rows always carry a title.
