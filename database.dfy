/**
 * The storage layer: the rows the system writes to its three tables and what
 * each storage operation reports back. The storage service itself is a
 * parameter: a function from the operation sent to what it answered.
 * Timestamps are parameters too, one per clock reading.
 */
module Database {
  import opened Wrappers

  /** A flat record with string fields, as collaborators hand articles and posts over. */
  type Record = map<string, string>

  /** A value inside a log entry's structured details. */
  datatype Detail = DInt(i: int) | DStr(s: string) | DBool(b: bool)

  /** The serialised details of a log entry; the JSON text itself is not modelled. */
  datatype Serialized = Serialized(details: map<string, Detail>)

  /** A `system_logs` row. */
  datatype LogEntry = LogEntry(level: string, message: string, details: Option<Serialized>, createdAt: string)

  /** A row returned by the storage: the columns the system reads back. */
  datatype Row = Row(id: int, title: string)

  /** The storage operations the system performs. */
  datatype Operation =
    | Insert(table: string, row: Record)
    | InsertLog(entry: LogEntry)
    | Update(table: string, changes: Record, id: int)
    | SelectRecent(table: string, orderBy: string, limit: int)

  /** What the storage answered: an exception, or the rows it returned. */
  datatype Reply = Failed | Rows(rows: seq<Row>)

  type Storage = Operation -> Reply

  const NewsTable: string := "news_articles"
  const PostsTable: string := "generated_posts"
  const GeneratedStatus: string := "generated"
  const PublishedStatus: string := "published"

  /** The operation answered without an exception and returned at least one row. */
  predicate ReturnedRows(reply: Reply) {
    reply.Rows? && |reply.rows| > 0
  }

  /**
   * The `news_articles` row for an article: its title, url, summary and
   * source (`""` when missing), its own publication time or the clock reading
   * `defaultPublishedAt`, and the creation time.
   */
  function NewsRecord(article: Record, defaultPublishedAt: string, createdAt: string): (row: Record)
    ensures row.Keys == {"title", "url", "summary", "source", "published_at", "created_at"}
    ensures forall k :: k in row && k != "published_at" && k != "created_at" ==> row[k] == MapGet(article, k, "")
    ensures row["published_at"] == MapGet(article, "published_at", defaultPublishedAt)
    ensures row["created_at"] == createdAt
  {
    map["title" := MapGet(article, "title", ""),
        "url" := MapGet(article, "url", ""),
        "summary" := MapGet(article, "summary", ""),
        "source" := MapGet(article, "source", ""),
        "published_at" := MapGet(article, "published_at", defaultPublishedAt),
        "created_at" := createdAt]
  }

  /** Saving an article reports whether the insert returned a row; an exception reports false. */
  function SaveNewsArticle(article: Record, defaultPublishedAt: string, createdAt: string, storage: Storage): (saved: bool)
    ensures var reply := storage(Insert(NewsTable, NewsRecord(article, defaultPublishedAt, createdAt)));
            saved <==> reply.Rows? && reply.rows != []
  {
    ReturnedRows(storage(Insert(NewsTable, NewsRecord(article, defaultPublishedAt, createdAt))))
  }

  /**
   * The `generated_posts` row for a draft: its title, content, hashtags and
   * source URL (`""` when missing), its generation time or the clock reading,
   * and the status `generated`.
   */
  function GeneratedPostRecord(post: Record, defaultGeneratedAt: string): (row: Record)
    ensures row.Keys == {"title", "content", "hashtags", "source_url", "generated_at", "status"}
    ensures row["status"] == GeneratedStatus
    ensures forall k :: k in row && k != "generated_at" && k != "status" ==> row[k] == MapGet(post, k, "")
    ensures row["generated_at"] == MapGet(post, "generated_at", defaultGeneratedAt)
  {
    map["title" := MapGet(post, "title", ""),
        "content" := MapGet(post, "content", ""),
        "hashtags" := MapGet(post, "hashtags", ""),
        "source_url" := MapGet(post, "source_url", ""),
        "generated_at" := MapGet(post, "generated_at", defaultGeneratedAt),
        "status" := GeneratedStatus]
  }

  /** Saving a draft yields the id of the first returned row; no rows, or an exception, yield `None`. */
  function SaveGeneratedPost(post: Record, defaultGeneratedAt: string, storage: Storage): (id: Option<int>)
    ensures var reply := storage(Insert(PostsTable, GeneratedPostRecord(post, defaultGeneratedAt)));
            && (id.Some? <==> reply.Rows? && reply.rows != [])
            && (id.Some? ==> id.value == reply.rows[0].id)
  {
    var reply := storage(Insert(PostsTable, GeneratedPostRecord(post, defaultGeneratedAt)));
    if ReturnedRows(reply) then Some(reply.rows[0].id) else None
  }

  /**
   * Changes a draft's status. The changes always carry the status and the
   * update time, the blog URL only when one is given and not empty, and the
   * publication time only for the status `published`. Reports whether the
   * update returned a row; an exception reports false.
   */
  method UpdatePostStatus(postId: int, status: string, blogUrl: Option<string>,
                          updatedAt: string, publishedAt: string, storage: Storage)
    returns (ok: bool, changes: Record)
    ensures "status" in changes && changes["status"] == status
    ensures "updated_at" in changes && changes["updated_at"] == updatedAt
    ensures "blog_url" in changes <==> blogUrl.Some? && blogUrl.value != ""
    ensures "blog_url" in changes ==> changes["blog_url"] == blogUrl.value
    ensures "published_at" in changes <==> status == PublishedStatus
    ensures "published_at" in changes ==> changes["published_at"] == publishedAt
    ensures changes.Keys <= {"status", "updated_at", "blog_url", "published_at"}
    ensures ok <==> ReturnedRows(storage(Update(PostsTable, changes, postId)))
  {
    changes := map["status" := status, "updated_at" := updatedAt];
    if blogUrl.Some? && blogUrl.value != "" {
      changes := changes["blog_url" := blogUrl.value];
    }
    if status == PublishedStatus {
      changes := changes["published_at" := publishedAt];
    }
    var reply := storage(Update(PostsTable, changes, postId));
    ok := reply.Rows? && reply.rows != [];
  }

  /** The most recent drafts, newest first as the storage orders them; none when the query raises. */
  function GetRecentPosts(limit: int, storage: Storage): (rows: seq<Row>)
    ensures storage(SelectRecent(PostsTable, "generated_at", limit)).Failed? ==> rows == []
    ensures storage(SelectRecent(PostsTable, "generated_at", limit)).Rows? ==>
              rows == storage(SelectRecent(PostsTable, "generated_at", limit)).rows
  {
    match storage(SelectRecent(PostsTable, "generated_at", limit))
    case Failed => []
    case Rows(rows) => rows
  }

  /** The log entry written: details are serialised only when given and not empty. */
  function SystemLogEntry(level: string, message: string, details: Option<map<string, Detail>>, createdAt: string): (entry: LogEntry)
    ensures entry.level == level && entry.message == message && entry.createdAt == createdAt
    ensures entry.details.Some? <==> details.Some? && details.value != map[]
    ensures entry.details.Some? ==> entry.details.value.details == details.value
  {
    var serialized := if details.Some? && details.value != map[] then Some(Serialized(details.value)) else None;
    LogEntry(level, message, serialized, createdAt)
  }
}
