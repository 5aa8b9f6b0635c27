/**
 * The Reddit curator: reads a subreddit's watermark, considers posts until
 * `maxPostsPerSubreddit` of them have been looked at, stores every fresh
 * post whose id is not yet in `RAW_IDEAS`, and writes the watermark back.
 */
module RedditCurator {
  import opened Wrappers
  import opened PyText
  import opened Fingerprint
  import opened Items
  import opened Services
  import opened Watermark
  import opened Relevance
  import opened ContentStore

  const DefaultMaxPostsPerSubreddit: int := 5
  const DescriptionLimit: nat := 500
  const WordsPerMinute: nat := 200
  const MaxTags: nat := 10

  /** The keywords looked for in a post, in the order they are tried. */
  const TechKeywords: seq<string> := [
    "ai", "artificial intelligence", "machine learning", "ml", "deep learning",
    "neural network", "gpt", "chatgpt", "openai", "google", "microsoft",
    "programming", "coding", "python", "javascript", "react", "vue",
    "startup", "tech", "technology", "innovation", "automation"]

  /** The attributes of a PRAW submission the curator reads; `createdUtc` in whole seconds. */
  datatype Submission = Submission(
    id: string,
    title: string,
    selftext: string,
    permalink: string,
    author: Option<string>,
    createdUtc: int)

  /** `list(subreddit.hot(...))`, or the exception raised while fetching. */
  datatype Listing = Posts(posts: seq<Submission>) | Failed(message: string)

  /** The dictionary `fetch_subreddit` returns. */
  datatype SubredditReport =
    | NoPosts(subredditName: string)
    | Success(subredditName: string, newPosts: nat, totalPosts: nat, processedPosts: nat, lastProcessed: Option<int>)
    | Error(subredditName: string, message: string)
  {
    /** `result.get('new_posts', 0)`. */
    function NewPosts(): nat {
      if Success? then newPosts else 0
    }
  }

  /** The id of a post: the fingerprint of its title, its Reddit id and the subreddit name. */
  function PostId(post: Submission, subreddit: string): Digest {
    ContentHash(post.title, post.id, subreddit)
  }

  function PostCandidate(post: Submission, subreddit: string): Candidate {
    Candidate(PostId(post, subreddit), Some(post.createdUtc))
  }

  /** The posts as the ingestion rule sees them. */
  function PostCandidates(posts: seq<Submission>, subreddit: string): (cs: seq<Candidate>)
    ensures |cs| == |posts|
    ensures forall i :: 0 <= i < |posts| ==> cs[i] == PostCandidate(posts[i], subreddit)
  {
    if posts == [] then [] else PostCandidates(posts[..|posts| - 1], subreddit) + [PostCandidate(posts[|posts| - 1], subreddit)]
  }

  /**
   * `_clean_text`: the empty text stays empty; otherwise the markdown
   * substitutions (given as `markdown`) are followed by `strip()`.
   */
  function CleanText(markdown: string -> string, text: string): (r: string)
    ensures text == "" ==> r == ""
    ensures r == Strip(r)
  {
    if text == "" then "" else
      var t := Strip(markdown(text));
      StripIdempotent(markdown(text));
      t
  }

  /** `description`: at most 500 characters of the content, with "..." appended when it was cut. */
  function Truncate(content: string): (r: string)
    ensures |r| <= DescriptionLimit + 3
    ensures |content| <= DescriptionLimit ==> r == content
    ensures |content| > DescriptionLimit ==> |r| == DescriptionLimit + 3 && EndsWith(r, "...")
    ensures StartsWith(r, content[..if |content| <= DescriptionLimit then |content| else DescriptionLimit])
  {
    if |content| > DescriptionLimit then content[..DescriptionLimit] + "..." else content
  }

  /** `max(1, word_count // 200)`, computed by `_extract_post_data` and not stored in the record. */
  function ReadingTimeMinutes(content: string): (m: nat)
    ensures m >= 1
    ensures WordCount(content) >= WordsPerMinute ==> m == WordCount(content) / WordsPerMinute
    ensures WordCount(content) < 2 * WordsPerMinute ==> m == 1
  {
    var w := WordCount(content);
    if w / WordsPerMinute > 1 then w / WordsPerMinute else 1
  }

  /** The tags found before deduplication: `keyword.title()` for each keyword occurring in `text`, in keyword order. */
  function FoundTags(text: string, keywords: seq<string>): (tags: seq<string>)
    ensures |tags| <= |keywords|
    ensures forall t :: t in tags ==> exists k :: k in keywords && Contains(text, k) && t == Title(k)
    ensures forall k :: k in keywords && Contains(text, k) ==> Title(k) in tags
  {
    if keywords == [] then []
    else
      var init := FoundTags(text, keywords[..|keywords| - 1]);
      var k := keywords[|keywords| - 1];
      assert forall k' :: k' in keywords <==> k' in keywords[..|keywords| - 1] || k' == k;
      if Contains(text, k) then init + [Title(k)] else init
  }

  /** The distinct elements of `s`, in order of first occurrence. */
  function Dedupe(s: seq<string>): (r: seq<string>)
    ensures Distinct(r)
    ensures forall x :: x in r <==> x in s
    ensures |r| <= |s|
  {
    if s == [] then []
    else
      var r := Dedupe(s[..|s| - 1]);
      assert forall x :: x in s <==> x in s[..|s| - 1] || x == s[|s| - 1];
      if s[|s| - 1] in r then r else r + [s[|s| - 1]]
  }

  /**
   * What `list(set(tags))[:10]` may give: no duplicates, only found tags,
   * and as many as there are distinct found tags up to 10, in an order the
   * set decides.
   */
  predicate TagSelection(tags: seq<string>, found: seq<string>) {
    && Distinct(tags)
    && (forall t :: t in tags ==> t in found)
    && |tags| == (if |Dedupe(found)| < MaxTags then |Dedupe(found)| else MaxTags)
  }

  /** When there are at most ten distinct tags to choose from, the selection keeps all of them. */
  lemma SelectionKeepsAll(tags: seq<string>, found: seq<string>)
    requires TagSelection(tags, found) && |Dedupe(found)| <= MaxTags
    ensures forall t :: t in found ==> t in tags
  {
    var d := Dedupe(found);
    DistinctElements(tags);
    DistinctElements(d);
    var st := set x | x in tags;
    var sd := set x | x in d;
    assert st <= sd;
    assert |st| == |sd|;
    if y :| y in sd && y !in st {
      SubsetNoLarger(st, sd - {y});
      assert false;
    }
    forall t | t in found
      ensures t in tags
    {
      assert t in d;
      assert t in sd;
    }
  }

  /** The keyword loop of `_extract_post_data`: appends `keyword.title()` for each keyword found in `text`. */
  method FindTags(text: string, keywords: seq<string>) returns (found: seq<string>)
    ensures found == FoundTags(text, keywords)
  {
    found := [];
    var i := 0;
    while i < |keywords|
      invariant 0 <= i <= |keywords|
      invariant found == FoundTags(text, keywords[..i])
    {
      assert keywords[..i + 1][..i] == keywords[..i];
      if Contains(text, keywords[i]) {
        found := found + [Title(keywords[i])];
      }
      i := i + 1;
    }
    assert keywords[..i] == keywords;
  }

  /** `list(set(found))[:10]`. */
  method SelectTags(found: seq<string>) returns (tags: seq<string>)
    ensures TagSelection(tags, found)
  {
    var d := Dedupe(found);
    var n := if |d| < MaxTags then |d| else MaxTags;
    assert TagSelection(d[..n], found) by {
      assert forall t :: t in d[..n] ==> t in d;
    }
    tags :| TagSelection(tags, found);
  }

  /** The tags as `_extract_post_data` computes them from the lower-cased title and content. */
  method ExtractTags(allText: string) returns (tags: seq<string>)
    ensures TagSelection(tags, FoundTags(allText, TechKeywords))
    ensures |tags| <= MaxTags
    ensures forall t :: t in tags ==> exists k :: k in TechKeywords && Contains(allText, k) && t == Title(k)
    ensures |Dedupe(FoundTags(allText, TechKeywords))| <= MaxTags ==>
      forall k :: k in TechKeywords && Contains(allText, k) ==> Title(k) in tags
  {
    var found := FindTags(allText, TechKeywords);
    tags := SelectTags(found);
    if |Dedupe(found)| <= MaxTags {
      SelectionKeepsAll(tags, found);
    }
  }

  /** The fields of a new Reddit record other than its tags. */
  function PostRecord(post: Submission, subreddit: string, content: string, tags: seq<string>, now: int): (item: Item)
    ensures item.id == PostId(post, subreddit) && item.contentHash == item.id
    ensures item.description == Truncate(content) && item.content == Some(content)
    ensures item.published == Some(post.createdUtc) && item.sourceType == RedditPost
    ensures item.humanApproved == Some(false) && item.reelGenerated == Some(false) && item.evaluation.None?
    ensures item.createdAt == now && item.processedAt == now
  {
    var id := PostId(post, subreddit);
    var url := "https://reddit.com" + post.permalink;
    Item(
      id := id,
      title := post.title,
      link := url,
      description := Truncate(content),
      content := Some(content),
      published := Some(post.createdUtc),
      author := post.author.GetOr("[deleted]"),
      sourceType := RedditPost,
      sourceUrl := url,
      sourceDomain := "reddit.com",
      sourceName := "r/" + subreddit,
      tags := tags,
      contentHash := id,
      humanApproved := Some(false),
      reelGenerated := Some(false),
      reelGeneratedAt := None,
      createdAt := now,
      processedAt := now,
      evaluation := None)
  }

  /** The considered prefix: the loop stops once `max` posts were looked at (at once when `max <= 0`). */
  function ConsideredCount(len: nat, max: int): (k: nat)
    ensures k <= len
    ensures max <= 0 ==> k == 0
    ensures max > 0 ==> k <= max && (k < max ==> k == len)
  {
    if max <= 0 then 0 else if max < len then max else len
  }

  function TotalNewPosts(rs: seq<SubredditReport>): nat {
    if rs == [] then 0 else TotalNewPosts(rs[..|rs| - 1]) + rs[|rs| - 1].NewPosts()
  }

  /** A report with status `success`, as the summary counts them. */
  predicate Succeeded(r: SubredditReport) { r.Success? }

  /** The cycle summary logged after the loop: successful subreddits, configured subreddits and new posts. */
  datatype CycleSummary = CycleSummary(successful: nat, configured: nat, totalNew: nat)

  /**
   * The summary as written: the success rate divides by the number of
   * configured subreddits, so with none it raises ZeroDivisionError (None
   * here) and the cycle ends in the runner's error handler.
   */
  function CycleSummaryAsWritten(rs: seq<SubredditReport>, subreddits: seq<string>): Option<CycleSummary> {
    if |subreddits| == 0 then None else Some(CycleSummary(CountWhere(rs, Succeeded), |subreddits|, TotalNewPosts(rs)))
  }

  /** An empty subreddit list, which is what the configuration getter falls back to, makes the summary raise. */
  lemma EmptySubredditListRaises()
    ensures CycleSummaryAsWritten([], []) == None
  {
  }

  /**
   * The summary with the success rate left out when there is no subreddit
   * to divide by; wherever the written code does not raise, it logs the same.
   */
  function CycleSummaryOf(rs: seq<SubredditReport>, subreddits: seq<string>): (s: CycleSummary)
    ensures s.successful <= |rs| && (s.successful == |rs| <==> forall i :: 0 <= i < |rs| ==> rs[i].Success?)
    ensures s.configured == |subreddits| && s.totalNew == TotalNewPosts(rs)
    ensures |subreddits| > 0 ==> CycleSummaryAsWritten(rs, subreddits) == Some(s)
  {
    CycleSummary(CountWhere(rs, Succeeded), |subreddits|, TotalNewPosts(rs))
  }

  /** The report of one subreddit names it, and is an error exactly when fetching its posts failed. */
  predicate ReportFor(r: SubredditReport, subreddit: string, listing: Listing) {
    r.subredditName == subreddit && (r.Error? <==> listing.Failed?)
  }

  /** Each report is the report for the subreddit at the same position. */
  predicate ReportsFor(rs: seq<SubredditReport>, subreddits: seq<string>, listings: string -> Listing) {
    |rs| <= |subreddits| && forall i :: 0 <= i < |rs| ==> ReportFor(rs[i], subreddits[i], listings(subreddits[i]))
  }

  lemma ReportsForSnoc(rs: seq<SubredditReport>, subreddits: seq<string>, listings: string -> Listing, r: SubredditReport)
    requires ReportsFor(rs, subreddits, listings) && |rs| < |subreddits|
    requires ReportFor(r, subreddits[|rs|], listings(subreddits[|rs|]))
    ensures ReportsFor(rs + [r], subreddits, listings)
  {
    var grown := rs + [r];
    forall i | 0 <= i < |grown|
      ensures ReportFor(grown[i], subreddits[i], listings(subreddits[i]))
    {
      if i < |rs| {
        assert grown[i] == rs[i];
      }
    }
  }

  class RedditPostCurator {
    const db: Firestore
    const scorer: RelevanceScorer
    /** `enable_relevance_scoring and relevance_scorer`. */
    const scoring: bool
    const clock: Clock
    const maxPostsPerSubreddit: int
    /** The four markdown substitutions of `_clean_text`, before its final `strip()`. */
    const markdown: string -> string
    var running: bool

    /**
     * `written` is the record `_extract_post_data` builds from `post` at
     * its creation time, tags included, with the evaluation
     * `_store_content` merged in.
     */
    predicate PostWritten(subreddit: string, post: Submission, written: Item, minScore: int) {
      var content := CleanText(markdown, post.selftext);
      && WrittenAs(PostRecord(post, subreddit, content, written.tags, written.createdAt), written, scoring, minScore)
      && TagSelection(written.tags, FoundTags(Lower(post.title + " " + content), TechKeywords))
    }

    /** Every record of `after` that `before` lacks was written from one of `posts`. */
    ghost predicate AddedFromPosts(before: map<Digest, Item>, after: map<Digest, Item>, subreddit: string, posts: seq<Submission>, minScore: int) {
      forall k {:trigger Added(before, after, k)} :: Added(before, after, k) ==> exists post :: post in posts && PostWritten(subreddit, post, after[k], minScore)
    }

    /**
     * A record added by the loop starts unreviewed and not yet turned into
     * reels, and carries a valid evaluation when scoring is on.
     */
    lemma AddedPostsStartUnreviewed(before: map<Digest, Item>, after: map<Digest, Item>, subreddit: string, posts: seq<Submission>, minScore: int)
      requires AddedFromPosts(before, after, subreddit, posts, minScore)
      ensures forall k :: k in after && k !in before ==>
        && after[k].sourceType == RedditPost
        && after[k].humanApproved == Some(false) && after[k].reelGenerated == Some(false)
        && (after[k].evaluation.Some? <==> scoring)
        && (scoring ==> ValidScore(after[k].evaluation.value.relevanceScore))
    {
      forall k | k in after && k !in before
        ensures after[k].sourceType == RedditPost
        ensures after[k].humanApproved == Some(false) && after[k].reelGenerated == Some(false)
        ensures after[k].evaluation.Some? <==> scoring
        ensures scoring ==> ValidScore(after[k].evaluation.value.relevanceScore)
      {
        assert Added(before, after, k);
        var post :| post in posts && PostWritten(subreddit, post, after[k], minScore);
        assert WrittenAs(PostRecord(post, subreddit, CleanText(markdown, post.selftext), after[k].tags, after[k].createdAt), after[k], scoring, minScore);
      }
    }

    /** One more turn of the loop over `posts` keeps every added record accounted for. */
    lemma AddedFromPostsSnoc(start: map<Digest, Item>, mid: map<Digest, Item>, after: map<Digest, Item>,
                             subreddit: string, posts: seq<Submission>, i: nat, stored: bool, minScore: int)
      requires i < |posts| && AddedFromPosts(start, mid, subreddit, posts[..i], minScore)
      requires !stored ==> after == mid
      requires stored ==> var id := PostId(posts[i], subreddit);
        && id in after && after == mid[id := after[id]]
        && PostWritten(subreddit, posts[i], after[id], minScore)
      ensures AddedFromPosts(start, after, subreddit, posts[..i + 1], minScore)
    {
      forall k | Added(start, after, k)
        ensures exists post :: post in posts[..i + 1] && PostWritten(subreddit, post, after[k], minScore)
      {
        if stored && k == PostId(posts[i], subreddit) {
          assert posts[i] in posts[..i + 1];
        } else {
          assert Added(start, mid, k);
          var post :| post in posts[..i] && PostWritten(subreddit, post, mid[k], minScore);
          assert post in posts[..i + 1];
        }
      }
    }

    constructor (db: Firestore, scorer: RelevanceScorer, scoring: bool, maxPostsPerSubreddit: int, markdown: string -> string)
      ensures this.db == db && this.scorer == scorer && this.scoring == scoring && clock == scorer.clock
      ensures this.maxPostsPerSubreddit == maxPostsPerSubreddit && this.markdown == markdown && running
    {
      this.db := db;
      this.scorer := scorer;
      this.scoring := scoring;
      clock := scorer.clock;
      this.maxPostsPerSubreddit := maxPostsPerSubreddit;
      this.markdown := markdown;
      running := true;
    }

    /** `_get_subreddit_metadata`: the stored document, or a fresh one that is written. */
    method GetSubredditMetadata(subreddit: string) returns (m: SourceMetadata)
      modifies db`subredditMetadata
      ensures m == MetadataAfterRead(old(db.subredditMetadata), subreddit, clock.now)
      ensures db.subredditMetadata == old(db.subredditMetadata)[MetadataKey(subreddit) := m]
    {
      var key := MetadataKey(subreddit);
      if key in db.subredditMetadata {
        m := db.subredditMetadata[key];
        assert db.subredditMetadata == db.subredditMetadata[key := m];
      } else {
        m := SourceMetadata(subreddit, None, 0, clock.now, clock.now);
        db.subredditMetadata := db.subredditMetadata[key := m];
      }
    }

    /** `_update_subreddit_metadata`: sets the watermark and adds to the running total; a missing document is left alone. */
    method UpdateSubredditMetadata(subreddit: string, lastProcessed: Option<int>, postsProcessed: nat)
      modifies db`subredditMetadata
      ensures var key := MetadataKey(subreddit);
        && (key in old(db.subredditMetadata) ==> db.subredditMetadata == old(db.subredditMetadata)[key := old(db.subredditMetadata)[key].(
          lastProcessed := lastProcessed,
          totalProcessed := old(db.subredditMetadata)[key].totalProcessed + postsProcessed,
          lastUpdated := clock.now)])
        && (key !in old(db.subredditMetadata) ==> db.subredditMetadata == old(db.subredditMetadata))
    {
      var key := MetadataKey(subreddit);
      if key in db.subredditMetadata {
        var m := db.subredditMetadata[key];
        db.subredditMetadata := db.subredditMetadata[key := m.(
          lastProcessed := lastProcessed,
          totalProcessed := m.totalProcessed + postsProcessed,
          lastUpdated := clock.now)];
      }
    }

    /** `_extract_post_data`. */
    method ExtractPostData(post: Submission, subreddit: string) returns (item: Item)
      ensures var content := CleanText(markdown, post.selftext);
        && item == PostRecord(post, subreddit, content, item.tags, clock.now)
        && TagSelection(item.tags, FoundTags(Lower(post.title + " " + content), TechKeywords))
    {
      var content := CleanText(markdown, post.selftext);
      var tags := ExtractTags(Lower(post.title + " " + content));
      item := PostRecord(post, subreddit, content, tags, clock.now);
    }

    /** One pass of the loop in `fetch_subreddit` for a post that is looked at. */
    method ConsiderPost(post: Submission, subreddit: string, last: Option<int>, latest: Option<int>) returns (stored: bool, latest': Option<int>)
      requires clock == scorer.clock
      modifies db`rawIdeas, scorer`calls, scorer`lastApiCall, scorer`apiWorking, clock
      ensures var c := PostCandidate(post, subreddit);
        && stored == (IsFresh(c.date, last) && c.id !in old(db.rawIdeas).Keys)
        && db.rawIdeas.Keys == (if stored then old(db.rawIdeas).Keys + {c.id} else old(db.rawIdeas).Keys)
        && latest' == (if stored then Advance(latest, c.date) else latest)
      ensures !stored ==> db.rawIdeas == old(db.rawIdeas)
      ensures stored ==> var id := PostId(post, subreddit);
        && db.rawIdeas == old(db.rawIdeas)[id := db.rawIdeas[id]]
        && PostWritten(subreddit, post, db.rawIdeas[id], scorer.minScore)
        && db.rawIdeas[id].createdAt == old(clock.now)
      ensures Keeps(old(db.rawIdeas), db.rawIdeas)
      ensures clock.now >= old(clock.now)
    {
      stored := false;
      latest' := latest;
      if IsFresh(Some(post.createdUtc), last) {
        var item := ExtractPostData(post, subreddit);
        stored := StoreContent(db, scorer, scoring, item);
        if stored {
          latest' := Advance(latest, item.published);
        }
      }
    }

    /**
     * `ConsiderPost` on `posts[i]` as one step of the ingestion rule from
     * the progress `p` the loop made since `start`.
     */
    method ConsiderStep(posts: seq<Submission>, i: nat, subreddit: string, last: Option<int>,
                        ghost start: map<Digest, Item>, ghost p: Progress, latest: Option<int>)
      returns (stored: bool, latest': Option<int>)
      requires clock == scorer.clock && i < |posts|
      requires db.rawIdeas.Keys == p.keys && latest == p.latest
      requires AddedFromPosts(start, db.rawIdeas, subreddit, posts[..i], scorer.minScore) && Keeps(start, db.rawIdeas)
      modifies db`rawIdeas, scorer`calls, scorer`lastApiCall, scorer`apiWorking, clock
      ensures var q := Step(p, PostCandidate(posts[i], subreddit), last);
        && db.rawIdeas.Keys == q.keys && latest' == q.latest
        && |q.stored| == |p.stored| + (if stored then 1 else 0)
      ensures AddedFromPosts(start, db.rawIdeas, subreddit, posts[..i + 1], scorer.minScore) && Keeps(start, db.rawIdeas)
      ensures clock.now >= old(clock.now)
    {
      ghost var mid := db.rawIdeas;
      stored, latest' := ConsiderPost(posts[i], subreddit, last, latest);
      KeepsChain(start, mid, db.rawIdeas);
      AddedFromPostsSnoc(start, mid, db.rawIdeas, subreddit, posts, i, stored, scorer.minScore);
    }

    /**
     * The loop of `fetch_subreddit`: every post looked at counts as
     * processed, whether it is new, a duplicate or old, and the loop stops
     * once `maxPostsPerSubreddit` were processed.
     */
    method IngestPosts(posts: seq<Submission>, subreddit: string, last: Option<int>)
      returns (newCount: nat, processed: nat, latest: Option<int>)
      requires clock == scorer.clock
      modifies db`rawIdeas, scorer`calls, scorer`lastApiCall, scorer`apiWorking, clock
      ensures processed == ConsideredCount(|posts|, maxPostsPerSubreddit)
      ensures var p := Ingest(PostCandidates(posts, subreddit)[..processed], last, old(db.rawIdeas).Keys);
        db.rawIdeas.Keys == p.keys && newCount == |p.stored| && latest == p.latest
      ensures AddedFromPosts(old(db.rawIdeas), db.rawIdeas, subreddit, posts[..processed], scorer.minScore)
      ensures Keeps(old(db.rawIdeas), db.rawIdeas)
      ensures clock.now >= old(clock.now)
    {
      newCount := 0;
      processed := 0;
      latest := last;
      ghost var cs := PostCandidates(posts, subreddit);
      ghost var start := db.rawIdeas;
      ghost var t0 := clock.now;
      var i := 0;
      while i < |posts|
        invariant 0 <= i <= |posts| && processed == i
        invariant maxPostsPerSubreddit <= 0 ==> i == 0
        invariant maxPostsPerSubreddit > 0 ==> i <= maxPostsPerSubreddit
        invariant var p := Ingest(cs[..i], last, start.Keys);
          db.rawIdeas.Keys == p.keys && latest == p.latest && newCount == |p.stored|
        invariant AddedFromPosts(start, db.rawIdeas, subreddit, posts[..i], scorer.minScore)
        invariant Keeps(start, db.rawIdeas)
        invariant clock.now >= t0
      {
        if processed >= maxPostsPerSubreddit {
          break;
        }
        ghost var p := Ingest(cs[..i], last, start.Keys);
        assert cs[..i + 1] == cs[..i] + [cs[i]] && cs[i] == PostCandidate(posts[i], subreddit);
        IngestSnoc(cs[..i], cs[i], last, start.Keys);
        var stored;
        stored, latest := ConsiderStep(posts, i, subreddit, last, start, p, latest);
        if stored {
          newCount := newCount + 1;
        }
        processed := processed + 1;
        i := i + 1;
      }
    }

    /**
     * `fetch_subreddit`: the outcome is the ingestion rule applied to the
     * posts looked at, with the stored watermark and the ids already in the
     * store.
     */
    method FetchSubreddit(subreddit: string, listing: Listing) returns (r: SubredditReport)
      requires clock == scorer.clock
      modifies db`rawIdeas, db`subredditMetadata, scorer`calls, scorer`lastApiCall, scorer`apiWorking, clock
      ensures r.subredditName == subreddit
      ensures r.Error? <==> listing.Failed?
      ensures r.NoPosts? <==> listing.Posts? && listing.posts == []
      ensures listing.Failed? ==> r.message == listing.message
      ensures r.Success? ==>
        var processed := ConsideredCount(|listing.posts|, maxPostsPerSubreddit);
        var last := StoredWatermark(old(db.subredditMetadata), subreddit);
        var p := Ingest(PostCandidates(listing.posts, subreddit)[..processed], last, old(db.rawIdeas).Keys);
        && r == Success(subreddit, |p.stored|, |listing.posts|, processed, p.latest)
        && db.rawIdeas.Keys == p.keys
        && AddedFromPosts(old(db.rawIdeas), db.rawIdeas, subreddit, listing.posts[..processed], scorer.minScore)
      ensures r.Success? ==> r.newPosts <= r.processedPosts <= r.totalPosts
      ensures db.subredditMetadata.Keys == old(db.subredditMetadata).Keys + {MetadataKey(subreddit)}
      ensures forall k :: k in old(db.subredditMetadata) && k != MetadataKey(subreddit) ==> db.subredditMetadata[k] == old(db.subredditMetadata)[k]
      ensures var read := MetadataAfterRead(old(db.subredditMetadata), subreddit, old(clock.now));
        db.subredditMetadata[MetadataKey(subreddit)] == if r.Success? then WrittenBack(read, r.newPosts, r.lastProcessed, clock.now) else read
      ensures !r.Success? ==> db.rawIdeas == old(db.rawIdeas)
      ensures |db.rawIdeas.Keys| == |old(db.rawIdeas).Keys| + r.NewPosts()
      ensures Keeps(old(db.rawIdeas), db.rawIdeas)
      ensures clock.now >= old(clock.now)
    {
      var m := GetSubredditMetadata(subreddit);
      if listing.Failed? {
        return Error(subreddit, listing.message);
      }
      var posts := listing.posts;
      if posts == [] {
        return NoPosts(subreddit);
      }
      r := IngestListing(subreddit, posts);
    }

    /**
     * The part of `fetch_subreddit` after a non-empty listing came back: the
     * considered posts are ingested against the stored watermark, and the
     * metadata document is updated when posts were stored or the watermark
     * moved, which after the loop is when posts were stored.
     */
    method IngestListing(subreddit: string, posts: seq<Submission>) returns (r: SubredditReport)
      requires clock == scorer.clock
      requires MetadataKey(subreddit) in db.subredditMetadata
      modifies db`rawIdeas, db`subredditMetadata, scorer`calls, scorer`lastApiCall, scorer`apiWorking, clock
      ensures var m := old(db.subredditMetadata)[MetadataKey(subreddit)];
        var processed := ConsideredCount(|posts|, maxPostsPerSubreddit);
        var p := Ingest(PostCandidates(posts, subreddit)[..processed], m.lastProcessed, old(db.rawIdeas).Keys);
        && r == Success(subreddit, |p.stored|, |posts|, processed, p.latest)
        && |p.stored| <= processed
        && (|p.stored| == 0 ==> p.latest == m.lastProcessed)
        && db.rawIdeas.Keys == p.keys
        && db.subredditMetadata == old(db.subredditMetadata)[MetadataKey(subreddit) := WrittenBack(m, |p.stored|, p.latest, clock.now)]
      ensures AddedFromPosts(old(db.rawIdeas), db.rawIdeas, subreddit, posts[..ConsideredCount(|posts|, maxPostsPerSubreddit)], scorer.minScore)
      ensures |db.rawIdeas.Keys| == |old(db.rawIdeas).Keys| + r.NewPosts()
      ensures Keeps(old(db.rawIdeas), db.rawIdeas)
      ensures clock.now >= old(clock.now)
    {
      var last := db.subredditMetadata[MetadataKey(subreddit)].lastProcessed;
      var newCount, processed, latest := IngestCountedPosts(posts, subreddit, last);
      WriteBackSubredditMetadata(subreddit, last, newCount, latest);
      r := Success(subreddit, newCount, |posts|, processed, latest);
    }

    /** `IngestPosts` with the facts about its counts that the write-back needs. */
    method IngestCountedPosts(posts: seq<Submission>, subreddit: string, last: Option<int>)
      returns (newCount: nat, processed: nat, latest: Option<int>)
      requires clock == scorer.clock
      modifies db`rawIdeas, scorer`calls, scorer`lastApiCall, scorer`apiWorking, clock
      ensures processed == ConsideredCount(|posts|, maxPostsPerSubreddit)
      ensures var p := Ingest(PostCandidates(posts, subreddit)[..processed], last, old(db.rawIdeas).Keys);
        db.rawIdeas.Keys == p.keys && newCount == |p.stored| && latest == p.latest
      ensures newCount <= processed && (newCount == 0 ==> latest == last)
      ensures AddedFromPosts(old(db.rawIdeas), db.rawIdeas, subreddit, posts[..processed], scorer.minScore)
      ensures |db.rawIdeas.Keys| == |old(db.rawIdeas).Keys| + newCount
      ensures Keeps(old(db.rawIdeas), db.rawIdeas)
      ensures clock.now >= old(clock.now)
    {
      ghost var keys0 := db.rawIdeas.Keys;
      newCount, processed, latest := IngestPosts(posts, subreddit, last);
      ghost var cs := PostCandidates(posts, subreddit)[..processed];
      WriteOnlyAfterStore(cs, last, keys0);
      IngestGrowsByStored(cs, last, keys0);
      IngestStores(cs, last, keys0);
    }

    /** `if new_posts_count > 0 or latest_processed_date != last_processed: _update_subreddit_metadata(...)`. */
    method WriteBackSubredditMetadata(subreddit: string, last: Option<int>, newCount: nat, latest: Option<int>)
      requires MetadataKey(subreddit) in db.subredditMetadata
      requires newCount == 0 ==> latest == last
      modifies db`subredditMetadata
      ensures db.subredditMetadata == old(db.subredditMetadata)[MetadataKey(subreddit) := WrittenBack(old(db.subredditMetadata)[MetadataKey(subreddit)], newCount, latest, clock.now)]
    {
      if newCount > 0 || latest != last {
        UpdateSubredditMetadata(subreddit, latest, newCount);
      }
    }

    /** One subreddit of `fetch_multiple_subreddits`: what the loop over subreddits needs to know of `fetch_subreddit`. */
    method FetchSubredditStep(subreddit: string, listing: Listing) returns (r: SubredditReport)
      requires clock == scorer.clock
      modifies db`rawIdeas, db`subredditMetadata, scorer`calls, scorer`lastApiCall, scorer`apiWorking, clock
      ensures ReportFor(r, subreddit, listing)
      ensures |db.rawIdeas.Keys| == |old(db.rawIdeas).Keys| + r.NewPosts()
      ensures Keeps(old(db.rawIdeas), db.rawIdeas)
    {
      r := FetchSubreddit(subreddit, listing);
    }

    /** `fetch_multiple_subreddits`: one report per subreddit, in order, while `running` holds. */
    method FetchMultipleSubreddits(subreddits: seq<string>, listings: string -> Listing) returns (results: seq<SubredditReport>, summary: CycleSummary)
      requires clock == scorer.clock
      modifies db`rawIdeas, db`subredditMetadata, scorer`calls, scorer`lastApiCall, scorer`apiWorking, clock
      ensures |results| == (if running then |subreddits| else 0)
      ensures ReportsFor(results, subreddits, listings)
      ensures summary == CycleSummaryOf(results, subreddits) && summary.successful <= summary.configured
      ensures |db.rawIdeas.Keys| == |old(db.rawIdeas).Keys| + summary.totalNew
      ensures Keeps(old(db.rawIdeas), db.rawIdeas)
    {
      results := FetchEachSubreddit(subreddits, listings);
      summary := CycleSummaryOf(results, subreddits);
    }

    /** The loop of `fetch_multiple_subreddits`. */
    method FetchEachSubreddit(subreddits: seq<string>, listings: string -> Listing) returns (results: seq<SubredditReport>)
      requires clock == scorer.clock
      modifies db`rawIdeas, db`subredditMetadata, scorer`calls, scorer`lastApiCall, scorer`apiWorking, clock
      ensures |results| == (if running then |subreddits| else 0)
      ensures ReportsFor(results, subreddits, listings)
      ensures |db.rawIdeas.Keys| == |old(db.rawIdeas).Keys| + TotalNewPosts(results)
      ensures Keeps(old(db.rawIdeas), db.rawIdeas)
    {
      ghost var start := db.rawIdeas;
      results := [];
      var i := 0;
      while i < |subreddits|
        invariant 0 <= i <= |subreddits| && |results| == i
        invariant !running ==> i == 0
        invariant ReportsFor(results, subreddits, listings)
        invariant |db.rawIdeas.Keys| == |start.Keys| + TotalNewPosts(results)
        invariant Keeps(start, db.rawIdeas)
      {
        if !running {
          break;
        }
        ghost var mid := db.rawIdeas;
        var r := FetchSubredditStep(subreddits[i], listings(subreddits[i]));
        KeepsChain(start, mid, db.rawIdeas);
        ReportsForSnoc(results, subreddits, listings, r);
        var grown := results + [r];
        assert grown[..i] == results && grown[i] == r;
        results := grown;
        i := i + 1;
      }
    }

    /** `stop`. */
    method Stop()
      modifies this`running
      ensures !running
    {
      running := false;
    }
  }
}
