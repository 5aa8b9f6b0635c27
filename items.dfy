/**
 * The records the curation engine reads and writes: raw ideas in the
 * `RAW_IDEAS` collection, per-source metadata documents, reel ideas and
 * settings documents.
 */
module Items {
  import opened Wrappers
  import opened Fingerprint

  datatype SourceType = RssFeed | RedditPost {
    /** The `source_type` string stored in the record. */
    function Name(): string {
      match this
      case RssFeed => "rss_feed"
      case RedditPost => "reddit_post"
    }
  }

  /** `evaluation_criteria` of a successful scoring. */
  datatype Criteria = Criteria(minScoreThreshold: int, contentLength: nat, sourceType: string)

  /** The fields the relevance scorer merges into a record. */
  datatype Evaluation = Evaluation(
    relevanceScore: int,
    isRelevant: bool,
    evaluatedAt: int,
    evaluationModel: string,
    criteria: Option<Criteria>)

  /**
   * A raw idea. `content` is present only on Reddit records;
   * `humanApproved` and `reelGenerated` are absent on RSS records until a
   * person edits the document; `evaluation` is absent when scoring is off.
   */
  datatype Item = Item(
    id: Digest,
    title: string,
    link: string,
    description: string,
    content: Option<string>,
    published: Option<int>,
    author: string,
    sourceType: SourceType,
    sourceUrl: string,
    sourceDomain: string,
    sourceName: string,
    tags: seq<string>,
    contentHash: Digest,
    humanApproved: Option<bool>,
    reelGenerated: Option<bool>,
    reelGeneratedAt: Option<int>,
    createdAt: int,
    processedAt: int,
    evaluation: Option<Evaluation>)

  /** A document of `RSS_METADATA` or `SUBREDDIT_METADATA`. */
  datatype SourceMetadata = SourceMetadata(
    name: string,
    lastProcessed: Option<int>,
    totalProcessed: int,
    createdAt: int,
    lastUpdated: int)

  /** The watermark stored for the source `name`, or none when it has no metadata yet. */
  function StoredWatermark(meta: map<Digest, SourceMetadata>, name: string): Option<int> {
    if MetadataKey(name) in meta then meta[MetadataKey(name)].lastProcessed else None
  }

  /** `total_items_processed` stored for the source `name`, 0 when it has no metadata yet. */
  function StoredTotal(meta: map<Digest, SourceMetadata>, name: string): int {
    if MetadataKey(name) in meta then meta[MetadataKey(name)].totalProcessed else 0
  }

  /**
   * The document a metadata read at time `t` leaves for the source `name`:
   * the stored one, or a new one with no watermark and no items, stamped `t`.
   */
  function MetadataAfterRead(meta: map<Digest, SourceMetadata>, name: string, t: int): (m: SourceMetadata)
    ensures m.lastProcessed == StoredWatermark(meta, name) && m.totalProcessed == StoredTotal(meta, name)
    ensures MetadataKey(name) in meta ==> m == meta[MetadataKey(name)]
    ensures MetadataKey(name) !in meta ==> m.name == name && m.createdAt == t && m.lastUpdated == t
  {
    if MetadataKey(name) in meta then meta[MetadataKey(name)] else SourceMetadata(name, None, 0, t, t)
  }

  /**
   * The document after the write-back that ends a fetch: unchanged when
   * nothing was stored, otherwise with the new watermark, the total grown
   * by the stored count, and `last_updated` stamped `now`.
   */
  function WrittenBack(m: SourceMetadata, stored: nat, latest: Option<int>, now: int): (w: SourceMetadata)
    ensures stored == 0 ==> w == m
    ensures stored > 0 ==>
      && w.name == m.name && w.createdAt == m.createdAt && w.lastProcessed == latest
      && w.totalProcessed == m.totalProcessed + stored && w.lastUpdated == now
  {
    if stored > 0 then m.(lastProcessed := latest, totalProcessed := m.totalProcessed + stored, lastUpdated := now) else m
  }

  /** One reel concept as decoded from the model's JSON answer; its fields are not interpreted. */
  datatype Reel = Reel(fields: map<string, string>)

  /** A settings value as Firestore hands it back. */
  datatype Value = Str(s: string) | Int(i: int) | Bool(b: bool) | StrList(items: seq<string>) | Null

  type Doc = map<string, Value>

  /**
   * The dictionary view the relevance scorer reads: `title` and
   * `source_type` when present, and the string-valued content fields.
   */
  datatype ContentDoc = ContentDoc(title: Option<string>, sourceType: Option<string>, fields: map<string, string>)

  /** How a raw idea looks to the scorer: its description, and its content when it has one. */
  function ScorerView(item: Item): (d: ContentDoc)
    ensures d.title == Some(item.title) && d.sourceType == Some(item.sourceType.Name())
    ensures "description" in d.fields && d.fields["description"] == item.description
    ensures "content" in d.fields <==> item.content.Some?
    ensures item.content.Some? ==> d.fields["content"] == item.content.value
    ensures d.fields.Keys <= {"description", "content"}
  {
    var base := map["description" := item.description];
    ContentDoc(
      Some(item.title),
      Some(item.sourceType.Name()),
      if item.content.Some? then base["content" := item.content.value] else base)
  }
}
