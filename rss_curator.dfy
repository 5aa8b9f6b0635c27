/**
 * The RSS curator: reads a feed's watermark, walks at most
 * `maxItemsPerFeed` entries, stores every fresh entry whose id is not yet
 * in `RAW_IDEAS`, and writes the watermark back.
 */
module RssCurator {
  import opened Wrappers
  import opened Fingerprint
  import opened Items
  import opened Services
  import opened Watermark
  import opened Relevance
  import opened ContentStore

  const DefaultMaxItemsPerFeed: int := 20

  /** A feed entry as `feedparser` hands it over; a missing key is `None`. */
  datatype RssEntry = RssEntry(
    title: Option<string>,
    link: Option<string>,
    summary: Option<string>,
    description: Option<string>,
    published: Option<string>,
    author: Option<string>,
    tags: seq<string>)

  /** `feedparser.parse(url)`: the entries and the feed title, or the exception raised while fetching. */
  datatype Feed = Parsed(entries: seq<RssEntry>, title: Option<string>) | Failed(message: string)

  /** The dictionary `fetch_feed` returns. */
  datatype FeedReport =
    | NoEntries(feedUrl: string)
    | Success(feedUrl: string, newItems: nat, totalItems: nat, processedItems: nat, feedTitle: string, lastProcessed: Option<int>)
    | Error(feedUrl: string, message: string)
  {
    /** `result.get('new_items', 0)`. */
    function NewItems(): nat {
      if Success? then newItems else 0
    }
  }

  /** `_parse_feed_date(entry.get('published', ''))`: an absent or empty string gives no date. */
  function PublishedDate(parseDate: string -> Option<int>, e: RssEntry): (d: Option<int>)
    ensures e.published.None? || e.published.value == "" ==> d.None?
    ensures e.published.Some? && e.published.value != "" ==> d == parseDate(e.published.value)
  {
    if e.published.None? || e.published.value == "" then None else parseDate(e.published.value)
  }

  /** The id of an entry: the fingerprint of its title, link and summary, with "" for a missing one. */
  function EntryId(e: RssEntry): Digest {
    ContentHash(e.title.GetOr(""), e.link.GetOr(""), e.summary.GetOr(""))
  }

  function EntryCandidate(parseDate: string -> Option<int>, e: RssEntry): Candidate {
    Candidate(EntryId(e), PublishedDate(parseDate, e))
  }

  /** The entries as the ingestion rule sees them. */
  function Candidates(parseDate: string -> Option<int>, es: seq<RssEntry>): (cs: seq<Candidate>)
    ensures |cs| == |es|
    ensures forall i :: 0 <= i < |es| ==> cs[i] == EntryCandidate(parseDate, es[i])
  {
    if es == [] then [] else Candidates(parseDate, es[..|es| - 1]) + [EntryCandidate(parseDate, es[|es| - 1])]
  }

  /** The length of `xs[:n]` for a list of length `len`, with Python's meaning of a negative `n`. */
  function SliceLength(len: nat, n: int): (k: nat)
    ensures k <= len
    ensures n >= 0 ==> k <= n && (k < n ==> k == len)
    ensures n < 0 ==> k + -n >= len && (k > 0 ==> k + -n == len)
  {
    if n >= 0 then (if n < len then n else len)
    else if len + n > 0 then len + n else 0
  }

  /**
   * `_extract_content_data`: the stored title falls back to "No Title"
   * while the id is computed with "", the description is the summary or
   * else the description, and the date is parsed once for both the
   * freshness test and the record.
   */
  function ExtractContentData(parseDate: string -> Option<int>, e: RssEntry, feedUrl: string, domain: string, now: int): (item: Item)
    ensures item.id == EntryId(e) && item.contentHash == item.id
    ensures item.published == PublishedDate(parseDate, e)
    ensures item.title == e.title.GetOr("No Title")
    ensures item.description == (if e.summary.Some? then e.summary.value else e.description.GetOr(""))
    ensures item.sourceType == RssFeed && item.sourceUrl == feedUrl && item.sourceName == "RSS Feed - " + domain
    ensures item.content.None? && item.humanApproved.None? && item.reelGenerated.None? && item.evaluation.None?
    ensures item.createdAt == now && item.processedAt == now
  {
    var id := EntryId(e);
    Item(
      id := id,
      title := e.title.GetOr("No Title"),
      link := e.link.GetOr(""),
      description := if e.summary.Some? then e.summary.value else e.description.GetOr(""),
      content := None,
      published := PublishedDate(parseDate, e),
      author := e.author.GetOr(""),
      sourceType := RssFeed,
      sourceUrl := feedUrl,
      sourceDomain := domain,
      sourceName := "RSS Feed - " + domain,
      tags := e.tags,
      contentHash := id,
      humanApproved := None,
      reelGenerated := None,
      reelGeneratedAt := None,
      createdAt := now,
      processedAt := now,
      evaluation := None)
  }

  /**
   * An entry without a title is stored as "No Title" but shares its id
   * with an entry whose title is empty: the fallback is not part of the
   * fingerprint.
   */
  lemma MissingTitleHashesAsEmpty(e: RssEntry)
    requires e.title.None?
    ensures EntryId(e) == EntryId(e.(title := Some("")))
    ensures EntryId(e) != EntryId(e.(title := Some("No Title")))
  {
    var k := KeyString("", e.link.GetOr(""), e.summary.GetOr(""));
    var k' := KeyString("No Title", e.link.GetOr(""), e.summary.GetOr(""));
    assert k[0] == '|' && k'[0] == 'N';
  }

  /** Two entries with the same title, link and summary get the same id, whatever their other fields. */
  lemma IdIgnoresOtherFields(e: RssEntry, e': RssEntry)
    requires e.title == e'.title && e.link == e'.link && e.summary == e'.summary
    ensures EntryId(e) == EntryId(e')
  {
  }

  /** The number of new items over a cycle's reports, as the cycle summary adds them up. */
  function TotalNewItems(rs: seq<FeedReport>): nat {
    if rs == [] then 0 else TotalNewItems(rs[..|rs| - 1]) + rs[|rs| - 1].NewItems()
  }

  /** A report with status `success`, as the summary counts them. */
  predicate Succeeded(r: FeedReport) { r.Success? }

  /** The cycle summary logged after the loop: successful feeds, configured feeds and new items. */
  datatype CycleSummary = CycleSummary(successful: nat, configured: nat, totalNew: nat)

  /**
   * The summary as written: the success rate divides by the number of
   * configured feeds, so with none it raises ZeroDivisionError (None here)
   * and the cycle ends in the runner's error handler.
   */
  function CycleSummaryAsWritten(rs: seq<FeedReport>, feedUrls: seq<string>): Option<CycleSummary> {
    if |feedUrls| == 0 then None else Some(CycleSummary(CountWhere(rs, Succeeded), |feedUrls|, TotalNewItems(rs)))
  }

  /** An empty feed list, which is what the configuration getter falls back to, makes the summary raise. */
  lemma EmptyFeedListRaises()
    ensures CycleSummaryAsWritten([], []) == None
  {
  }

  /**
   * The summary with the success rate left out when there is no feed to
   * divide by; wherever the written code does not raise, it logs the same.
   */
  function CycleSummaryOf(rs: seq<FeedReport>, feedUrls: seq<string>): (s: CycleSummary)
    ensures s.successful <= |rs| && (s.successful == |rs| <==> forall i :: 0 <= i < |rs| ==> rs[i].Success?)
    ensures s.configured == |feedUrls| && s.totalNew == TotalNewItems(rs)
    ensures |feedUrls| > 0 ==> CycleSummaryAsWritten(rs, feedUrls) == Some(s)
  {
    CycleSummary(CountWhere(rs, Succeeded), |feedUrls|, TotalNewItems(rs))
  }

  lemma TotalNewItemsSnoc(rs: seq<FeedReport>, r: FeedReport)
    ensures TotalNewItems(rs + [r]) == TotalNewItems(rs) + r.NewItems()
  {
    assert (rs + [r])[..|rs|] == rs;
  }

  /** The report of one feed names that feed, and is an error exactly when fetching or parsing it failed. */
  predicate ReportFor(r: FeedReport, feedUrl: string, feed: Feed) {
    r.feedUrl == feedUrl && (r.Error? <==> feed.Failed?)
  }

  /** Each report is the report for the feed at the same position. */
  predicate ReportsFor(rs: seq<FeedReport>, feedUrls: seq<string>, feeds: string -> Feed) {
    |rs| <= |feedUrls| && forall i :: 0 <= i < |rs| ==> ReportFor(rs[i], feedUrls[i], feeds(feedUrls[i]))
  }

  lemma ReportsForSnoc(rs: seq<FeedReport>, feedUrls: seq<string>, feeds: string -> Feed, r: FeedReport)
    requires ReportsFor(rs, feedUrls, feeds) && |rs| < |feedUrls|
    requires ReportFor(r, feedUrls[|rs|], feeds(feedUrls[|rs|]))
    ensures ReportsFor(rs + [r], feedUrls, feeds)
  {
    var grown := rs + [r];
    forall i | 0 <= i < |grown|
      ensures ReportFor(grown[i], feedUrls[i], feeds(feedUrls[i]))
    {
      if i < |rs| {
        assert grown[i] == rs[i];
      }
    }
  }

  class RssFeedCurator {
    const db: Firestore
    const scorer: RelevanceScorer
    /** `enable_relevance_scoring and relevance_scorer`. */
    const scoring: bool
    const clock: Clock
    const maxItemsPerFeed: int
    /** `_parse_feed_date` on a non-empty string. */
    const parseDate: string -> Option<int>
    /** `urlparse(url).netloc`. */
    const netloc: string -> string
    var running: bool

    /**
     * `written` is the record `_extract_content_data` builds from `e` at
     * its creation time, with the evaluation `_store_content` merged in.
     */
    predicate EntryWritten(feedUrl: string, e: RssEntry, written: Item, minScore: int) {
      WrittenAs(ExtractContentData(parseDate, e, feedUrl, netloc(feedUrl), written.createdAt), written, scoring, minScore)
    }

    /** Every record of `after` that `before` lacks was written from one of `entries`. */
    ghost predicate AddedFromEntries(before: map<Digest, Item>, after: map<Digest, Item>, feedUrl: string, entries: seq<RssEntry>, minScore: int) {
      forall k {:trigger Added(before, after, k)} :: Added(before, after, k) ==> exists e :: e in entries && EntryWritten(feedUrl, e, after[k], minScore)
    }

    /**
     * A record added by the loop is an RSS record without the review
     * fields, and carries a valid evaluation when scoring is on.
     */
    lemma AddedEntriesAreFeedRecords(before: map<Digest, Item>, after: map<Digest, Item>, feedUrl: string, entries: seq<RssEntry>, minScore: int)
      requires AddedFromEntries(before, after, feedUrl, entries, minScore)
      ensures forall k :: k in after && k !in before ==>
        && after[k].sourceType == RssFeed && after[k].sourceUrl == feedUrl
        && after[k].humanApproved.None? && after[k].reelGenerated.None?
        && (after[k].evaluation.Some? <==> scoring)
        && (scoring ==> ValidScore(after[k].evaluation.value.relevanceScore))
    {
      forall k | k in after && k !in before
        ensures after[k].sourceType == RssFeed && after[k].sourceUrl == feedUrl
        ensures after[k].humanApproved.None? && after[k].reelGenerated.None?
        ensures after[k].evaluation.Some? <==> scoring
        ensures scoring ==> ValidScore(after[k].evaluation.value.relevanceScore)
      {
        assert Added(before, after, k);
        var e :| e in entries && EntryWritten(feedUrl, e, after[k], minScore);
        assert WrittenAs(ExtractContentData(parseDate, e, feedUrl, netloc(feedUrl), after[k].createdAt), after[k], scoring, minScore);
      }
    }

    /** One more turn of the loop over `entries` keeps every added record accounted for. */
    lemma AddedFromEntriesSnoc(start: map<Digest, Item>, mid: map<Digest, Item>, after: map<Digest, Item>,
                               feedUrl: string, entries: seq<RssEntry>, i: nat, stored: bool, minScore: int)
      requires i < |entries| && AddedFromEntries(start, mid, feedUrl, entries[..i], minScore)
      requires !stored ==> after == mid
      requires stored ==> var id := EntryId(entries[i]);
        && id in after && after == mid[id := after[id]]
        && EntryWritten(feedUrl, entries[i], after[id], minScore)
      ensures AddedFromEntries(start, after, feedUrl, entries[..i + 1], minScore)
    {
      forall k | Added(start, after, k)
        ensures exists e :: e in entries[..i + 1] && EntryWritten(feedUrl, e, after[k], minScore)
      {
        if stored && k == EntryId(entries[i]) {
          assert entries[i] in entries[..i + 1];
        } else {
          assert Added(start, mid, k);
          var e :| e in entries[..i] && EntryWritten(feedUrl, e, mid[k], minScore);
          assert e in entries[..i + 1];
        }
      }
    }

    /** `max_items_per_feed or DEFAULT_MAX_ITEMS_PER_FEED`: absent or 0 gives 20. */
    constructor (db: Firestore, scorer: RelevanceScorer, scoring: bool, maxItemsPerFeed: Option<int>,
                 parseDate: string -> Option<int>, netloc: string -> string)
      ensures this.db == db && this.scorer == scorer && this.scoring == scoring && clock == scorer.clock
      ensures this.maxItemsPerFeed == (if maxItemsPerFeed.Some? && maxItemsPerFeed.value != 0 then maxItemsPerFeed.value else DefaultMaxItemsPerFeed)
      ensures this.parseDate == parseDate && this.netloc == netloc && running
    {
      this.db := db;
      this.scorer := scorer;
      this.scoring := scoring;
      clock := scorer.clock;
      this.maxItemsPerFeed := if maxItemsPerFeed.Some? && maxItemsPerFeed.value != 0 then maxItemsPerFeed.value else DefaultMaxItemsPerFeed;
      this.parseDate := parseDate;
      this.netloc := netloc;
      running := true;
    }

    /** `_get_RSS_METADATA`: the stored document, or a fresh one (no watermark, no items) that is written. */
    method GetRssMetadata(feedUrl: string) returns (m: SourceMetadata)
      modifies db`rssMetadata
      ensures m == MetadataAfterRead(old(db.rssMetadata), feedUrl, clock.now)
      ensures db.rssMetadata == old(db.rssMetadata)[MetadataKey(feedUrl) := m]
    {
      var key := MetadataKey(feedUrl);
      if key in db.rssMetadata {
        m := db.rssMetadata[key];
        assert db.rssMetadata == db.rssMetadata[key := m];
      } else {
        m := SourceMetadata(feedUrl, None, 0, clock.now, clock.now);
        db.rssMetadata := db.rssMetadata[key := m];
      }
    }

    /**
     * `_update_RSS_METADATA`: sets the watermark and adds `itemsProcessed`
     * to the running total; updating a document that does not exist fails
     * and changes nothing.
     */
    method UpdateRssMetadata(feedUrl: string, lastProcessed: Option<int>, itemsProcessed: nat)
      modifies db`rssMetadata
      ensures var key := MetadataKey(feedUrl);
        && (key in old(db.rssMetadata) ==> db.rssMetadata == old(db.rssMetadata)[key := old(db.rssMetadata)[key].(
          lastProcessed := lastProcessed,
          totalProcessed := old(db.rssMetadata)[key].totalProcessed + itemsProcessed,
          lastUpdated := clock.now)])
        && (key !in old(db.rssMetadata) ==> db.rssMetadata == old(db.rssMetadata))
    {
      var key := MetadataKey(feedUrl);
      if key in db.rssMetadata {
        var m := db.rssMetadata[key];
        db.rssMetadata := db.rssMetadata[key := m.(
          lastProcessed := lastProcessed,
          totalProcessed := m.totalProcessed + itemsProcessed,
          lastUpdated := clock.now)];
      }
    }

    /**
     * `fetch_feed`: the outcome is the ingestion rule applied to the first
     * `maxItemsPerFeed` entries with the stored watermark and the ids
     * already in the store.
     */
    method FetchFeed(feedUrl: string, feed: Feed) returns (r: FeedReport)
      requires clock == scorer.clock
      modifies db`rawIdeas, db`rssMetadata, scorer`calls, scorer`lastApiCall, scorer`apiWorking, clock
      ensures r.feedUrl == feedUrl
      ensures r.Error? <==> feed.Failed?
      ensures r.NoEntries? <==> feed.Parsed? && feed.entries == []
      ensures feed.Failed? ==> r.message == feed.message
      ensures r.Success? ==>
        var considered := feed.entries[..SliceLength(|feed.entries|, maxItemsPerFeed)];
        var last := StoredWatermark(old(db.rssMetadata), feedUrl);
        var p := Ingest(Candidates(parseDate, considered), last, old(db.rawIdeas).Keys);
        && r == Success(feedUrl, |p.stored|, |feed.entries|, |considered|, feed.title.GetOr("Unknown Feed"), p.latest)
        && db.rawIdeas.Keys == p.keys
        && AddedFromEntries(old(db.rawIdeas), db.rawIdeas, feedUrl, considered, scorer.minScore)
      ensures db.rssMetadata.Keys == old(db.rssMetadata).Keys + {MetadataKey(feedUrl)}
      ensures forall k :: k in old(db.rssMetadata) && k != MetadataKey(feedUrl) ==> db.rssMetadata[k] == old(db.rssMetadata)[k]
      ensures var read := MetadataAfterRead(old(db.rssMetadata), feedUrl, old(clock.now));
        db.rssMetadata[MetadataKey(feedUrl)] == if r.Success? then WrittenBack(read, r.newItems, r.lastProcessed, clock.now) else read
      ensures !r.Success? ==> db.rawIdeas == old(db.rawIdeas)
      ensures |db.rawIdeas.Keys| == |old(db.rawIdeas).Keys| + r.NewItems()
      ensures Keeps(old(db.rawIdeas), db.rawIdeas)
      ensures clock.now >= old(clock.now)
    {
      var m := GetRssMetadata(feedUrl);
      if feed.Failed? {
        return Error(feedUrl, feed.message);
      }
      if feed.entries == [] {
        return NoEntries(feedUrl);
      }
      r := IngestFeed(feedUrl, feed.entries, feed.title.GetOr("Unknown Feed"));
    }

    /**
     * The part of `fetch_feed` after a feed with entries was parsed: the
     * first `maxItemsPerFeed` entries are ingested against the stored
     * watermark, and the metadata document is updated when items were
     * stored or the watermark moved, which after the loop is when items
     * were stored.
     */
    method IngestFeed(feedUrl: string, entries: seq<RssEntry>, feedTitle: string) returns (r: FeedReport)
      requires clock == scorer.clock
      requires MetadataKey(feedUrl) in db.rssMetadata
      modifies db`rawIdeas, db`rssMetadata, scorer`calls, scorer`lastApiCall, scorer`apiWorking, clock
      ensures r.Success? && r.feedUrl == feedUrl && r.totalItems == |entries| && r.feedTitle == feedTitle
      ensures var m := old(db.rssMetadata)[MetadataKey(feedUrl)];
        var considered := entries[..SliceLength(|entries|, maxItemsPerFeed)];
        var p := Ingest(Candidates(parseDate, considered), m.lastProcessed, old(db.rawIdeas).Keys);
        && r.newItems == |p.stored| && r.processedItems == |considered| && r.lastProcessed == p.latest
        && (|p.stored| == 0 ==> p.latest == m.lastProcessed)
        && db.rawIdeas.Keys == p.keys
        && AddedFromEntries(old(db.rawIdeas), db.rawIdeas, feedUrl, considered, scorer.minScore)
        && db.rssMetadata == old(db.rssMetadata)[MetadataKey(feedUrl) := WrittenBack(m, |p.stored|, p.latest, clock.now)]
      ensures |db.rawIdeas.Keys| == |old(db.rawIdeas).Keys| + r.NewItems()
      ensures Keeps(old(db.rawIdeas), db.rawIdeas)
      ensures clock.now >= old(clock.now)
    {
      var last := db.rssMetadata[MetadataKey(feedUrl)].lastProcessed;
      var considered := entries[..SliceLength(|entries|, maxItemsPerFeed)];
      ghost var cs := Candidates(parseDate, considered);
      ghost var keys0 := db.rawIdeas.Keys;
      var newCount, latest := IngestEntries(feedUrl, considered, last);
      WriteOnlyAfterStore(cs, last, keys0);
      IngestGrowsByStored(cs, last, keys0);
      WriteBackRssMetadata(feedUrl, last, newCount, latest);
      r := Success(feedUrl, newCount, |entries|, |considered|, feedTitle, latest);
    }

    /** `if new_items_count > 0 or latest_processed_date != last_processed: _update_RSS_METADATA(...)`. */
    method WriteBackRssMetadata(feedUrl: string, last: Option<int>, newCount: nat, latest: Option<int>)
      requires MetadataKey(feedUrl) in db.rssMetadata
      requires newCount == 0 ==> latest == last
      modifies db`rssMetadata
      ensures db.rssMetadata == old(db.rssMetadata)[MetadataKey(feedUrl) := WrittenBack(old(db.rssMetadata)[MetadataKey(feedUrl)], newCount, latest, clock.now)]
    {
      if newCount > 0 || latest != last {
        UpdateRssMetadata(feedUrl, latest, newCount);
      }
    }

    /** The loop of `fetch_feed` over the considered entries: returns `new_items_count` and the new watermark. */
    method IngestEntries(feedUrl: string, entries: seq<RssEntry>, last: Option<int>) returns (newCount: nat, latest: Option<int>)
      requires clock == scorer.clock
      modifies db`rawIdeas, scorer`calls, scorer`lastApiCall, scorer`apiWorking, clock
      ensures var p := Ingest(Candidates(parseDate, entries), last, old(db.rawIdeas).Keys);
        db.rawIdeas.Keys == p.keys && newCount == |p.stored| && latest == p.latest
      ensures AddedFromEntries(old(db.rawIdeas), db.rawIdeas, feedUrl, entries, scorer.minScore)
      ensures Keeps(old(db.rawIdeas), db.rawIdeas)
      ensures clock.now >= old(clock.now)
    {
      newCount := 0;
      latest := last;
      ghost var cs := Candidates(parseDate, entries);
      ghost var start := db.rawIdeas;
      ghost var t0 := clock.now;
      var i := 0;
      while i < |entries|
        invariant 0 <= i <= |entries|
        invariant var p := Ingest(cs[..i], last, start.Keys);
          db.rawIdeas.Keys == p.keys && latest == p.latest && newCount == |p.stored|
        invariant AddedFromEntries(start, db.rawIdeas, feedUrl, entries[..i], scorer.minScore)
        invariant Keeps(start, db.rawIdeas)
        invariant clock.now >= t0
      {
        ghost var p := Ingest(cs[..i], last, start.Keys);
        assert cs[..i + 1] == cs[..i] + [cs[i]] && cs[i] == EntryCandidate(parseDate, entries[i]);
        IngestSnoc(cs[..i], cs[i], last, start.Keys);
        var stored;
        stored, latest := ConsiderEntryStep(feedUrl, entries, i, last, start, p, latest);
        if stored {
          newCount := newCount + 1;
        }
        i := i + 1;
      }
      assert cs[..i] == cs && entries[..i] == entries;
    }

    /**
     * `ConsiderEntry` on `entries[i]` as one step of the ingestion rule
     * from the progress `p` the loop made since `start`.
     */
    method ConsiderEntryStep(feedUrl: string, entries: seq<RssEntry>, i: nat, last: Option<int>,
                             ghost start: map<Digest, Item>, ghost p: Progress, latest: Option<int>)
      returns (stored: bool, latest': Option<int>)
      requires clock == scorer.clock && i < |entries|
      requires db.rawIdeas.Keys == p.keys && latest == p.latest
      requires AddedFromEntries(start, db.rawIdeas, feedUrl, entries[..i], scorer.minScore) && Keeps(start, db.rawIdeas)
      modifies db`rawIdeas, scorer`calls, scorer`lastApiCall, scorer`apiWorking, clock
      ensures var q := Step(p, EntryCandidate(parseDate, entries[i]), last);
        && db.rawIdeas.Keys == q.keys && latest' == q.latest
        && |q.stored| == |p.stored| + (if stored then 1 else 0)
      ensures AddedFromEntries(start, db.rawIdeas, feedUrl, entries[..i + 1], scorer.minScore) && Keeps(start, db.rawIdeas)
      ensures clock.now >= old(clock.now)
    {
      ghost var mid := db.rawIdeas;
      stored, latest' := ConsiderEntry(feedUrl, entries[i], last, latest);
      KeepsChain(start, mid, db.rawIdeas);
      AddedFromEntriesSnoc(start, mid, db.rawIdeas, feedUrl, entries, i, stored, scorer.minScore);
    }

    /**
     * One pass of the loop in `fetch_feed`: a fresh entry is extracted and
     * offered to the store; the running watermark advances over it when it
     * was stored.
     */
    method ConsiderEntry(feedUrl: string, e: RssEntry, last: Option<int>, latest: Option<int>) returns (stored: bool, latest': Option<int>)
      requires clock == scorer.clock
      modifies db`rawIdeas, scorer`calls, scorer`lastApiCall, scorer`apiWorking, clock
      ensures var c := EntryCandidate(parseDate, e);
        && stored == (IsFresh(c.date, last) && c.id !in old(db.rawIdeas).Keys)
        && db.rawIdeas.Keys == (if stored then old(db.rawIdeas).Keys + {c.id} else old(db.rawIdeas).Keys)
        && latest' == (if stored then Advance(latest, c.date) else latest)
      ensures !stored ==> db.rawIdeas == old(db.rawIdeas)
      ensures stored ==> var id := EntryId(e);
        && db.rawIdeas == old(db.rawIdeas)[id := db.rawIdeas[id]]
        && WrittenAs(ExtractContentData(parseDate, e, feedUrl, netloc(feedUrl), old(clock.now)), db.rawIdeas[id], scoring, scorer.minScore)
      ensures Keeps(old(db.rawIdeas), db.rawIdeas)
      ensures clock.now >= old(clock.now)
    {
      stored := false;
      latest' := latest;
      var date := PublishedDate(parseDate, e);
      if IsFresh(date, last) {
        var item := ExtractContentData(parseDate, e, feedUrl, netloc(feedUrl), clock.now);
        stored := StoreContent(db, scorer, scoring, item);
        if stored {
          latest' := Advance(latest, item.published);
        }
      }
    }

    /** One feed of `fetch_multiple_feeds`: what the loop over feeds needs to know of `fetch_feed`. */
    method FetchFeedStep(feedUrl: string, feed: Feed) returns (r: FeedReport)
      requires clock == scorer.clock
      modifies db`rawIdeas, db`rssMetadata, scorer`calls, scorer`lastApiCall, scorer`apiWorking, clock
      ensures ReportFor(r, feedUrl, feed)
      ensures |db.rawIdeas.Keys| == |old(db.rawIdeas).Keys| + r.NewItems()
      ensures Keeps(old(db.rawIdeas), db.rawIdeas)
    {
      r := FetchFeed(feedUrl, feed);
    }

    /**
     * `fetch_multiple_feeds`: one report per feed, in order, while
     * `running` holds, and the cycle's summary of them. Nothing in the loop
     * clears `running`, so either every feed or none is visited.
     */
    method FetchMultipleFeeds(feedUrls: seq<string>, feeds: string -> Feed) returns (results: seq<FeedReport>, summary: CycleSummary)
      requires clock == scorer.clock
      modifies db`rawIdeas, db`rssMetadata, scorer`calls, scorer`lastApiCall, scorer`apiWorking, clock
      ensures |results| == (if running then |feedUrls| else 0)
      ensures ReportsFor(results, feedUrls, feeds)
      ensures summary == CycleSummaryOf(results, feedUrls) && summary.successful <= summary.configured
      ensures |db.rawIdeas.Keys| == |old(db.rawIdeas).Keys| + summary.totalNew
      ensures Keeps(old(db.rawIdeas), db.rawIdeas)
    {
      results := FetchEachFeed(feedUrls, feeds);
      summary := CycleSummaryOf(results, feedUrls);
    }

    /** The loop of `fetch_multiple_feeds`. */
    method FetchEachFeed(feedUrls: seq<string>, feeds: string -> Feed) returns (results: seq<FeedReport>)
      requires clock == scorer.clock
      modifies db`rawIdeas, db`rssMetadata, scorer`calls, scorer`lastApiCall, scorer`apiWorking, clock
      ensures |results| == (if running then |feedUrls| else 0)
      ensures ReportsFor(results, feedUrls, feeds)
      ensures |db.rawIdeas.Keys| == |old(db.rawIdeas).Keys| + TotalNewItems(results)
      ensures Keeps(old(db.rawIdeas), db.rawIdeas)
    {
      ghost var start := db.rawIdeas;
      results := [];
      var i := 0;
      while i < |feedUrls|
        invariant 0 <= i <= |feedUrls| && |results| == i
        invariant !running ==> i == 0
        invariant ReportsFor(results, feedUrls, feeds)
        invariant |db.rawIdeas.Keys| == |start.Keys| + TotalNewItems(results)
        invariant Keeps(start, db.rawIdeas)
      {
        if !running {
          break;
        }
        ghost var mid := db.rawIdeas;
        var r := FetchFeedStep(feedUrls[i], feeds(feedUrls[i]));
        KeepsChain(start, mid, db.rawIdeas);
        TotalNewItemsSnoc(results, r);
        ReportsForSnoc(results, feedUrls, feeds, r);
        results := results + [r];
        i := i + 1;
      }
    }

    /** `stop`. */
    method Stop()
      modifies this`running
      ensures !running
    {
      running := false;
    }
  }
}
