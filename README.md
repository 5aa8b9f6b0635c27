# Curation engine of the AI content creation pipeline, in Dafny

This project models the curation engine of the pipeline at the level of its
sequential logic, and proves properties of the model. The pipeline:

- gathers candidate content from RSS feeds and Reddit subreddits into the
  `RAW_IDEAS` collection;
- has each item rated by Gemini for relevance;
- lets a human approve items;
- generates reel ideas for the approved items into `REEL_IDEAS`.

The parts modelled are:

- **Incremental ingestion** (`RssCurator`, `RedditCurator`, with the shared
  `Watermark`, `Fingerprint` and `ContentStore` modules):
  - a capped list of entries or posts is walked;
  - an item is kept only when it is newer than the source's watermark and its
    md5 fingerprint is not yet in the store;
  - the watermark advances over the newly stored items;
  - the per-source metadata is written back only when something changed.
- **Relevance scoring** (`Relevance`):
  - the prompt text chosen by source type;
  - the reply-to-score parser: an integer in [0,100], otherwise the first
    standalone 1-3 digit number;
  - the three-attempt retry that yields a score or the sentinel -1;
  - the threshold test;
  - the 30-second minimum spacing between calls;
  - the batch loop and the score-bucket statistics.
- **Reel generation** (`ReelGeneration`):
  - the retry-delay extractor over error messages;
  - the three-attempt request loop, which tells rate-limit errors from fatal
    ones;
  - code-fence stripping;
  - the select-approved, generate, save and mark sequence with its counters.
- **Configuration cache** (`ConfigCache`): settings documents cached behind
  one shared timestamp with a 300-second lifetime, and the getters with their
  fallbacks.
- **Cycle wait** (`CycleWait`):
  - the shutdown flag;
  - the one-second polling wait between cycles;
  - its countdown display with the hours/minutes/seconds split.

The collaborators are modelled as follows:

- The store is a `Firestore` object whose collections are maps and a
  sequence.
- Time is a `Clock` object counting whole seconds; only `Sleep` advances it.
- Gemini is a function from a prompt and a call index to a reply: a text or a
  raised message.
- Feed parsing, date parsing, the domain extraction of `urlparse`, markdown
  stripping and JSON decoding of the reel reply are function parameters.
- md5 is the injective constructor `Md5(preimage)`.

The two copies of the relevance scorer (`modules/relevance_scorer.py` and
`backend/modules/relevance_scorer.py`) are identical; one module models both,
and the table cites the backend copy.

## Model

| member | source | states |
|---|---|---|
| Fingerprint.MetadataKey | modules/rss_curator.py:100-110 | the metadata key of a source is the content hash of (name, "", ""), i.e. md5 of `name + "\|\|"` |
| Fingerprint.HashIsExactText | modules/rss_curator.py:100-103 | two fingerprints are equal exactly when the joined `a\|b\|c` texts are equal: no normalisation |
| Fingerprint.KeyStringInjective | modules/reddit_curator.py:124-127 | when the first two fields contain no `\|`, equal fingerprints mean equal triples |
| Fingerprint.SeparatorCollision | modules/rss_curator.py:100-103 | a `\|` inside a field lets two different triples share one fingerprint |
| Watermark.Advance | modules/rss_curator.py:321-323 | the running watermark after a stored item is the later of the two dates, never below either |
| Watermark.IngestSnoc | modules/rss_curator.py:309-328 | the ingestion of one more entry is one more step of the loop's rule |
| Watermark.IngestStores | modules/rss_curator.py:309-328 | the stored items are at most the considered ones, each fresh and new to the store, with distinct ids, and the store's keys grow by exactly their ids |
| Watermark.IngestWatermark | modules/reddit_curator.py:334-361 | the final watermark is at least the starting one and every stored item's date, and is either the starting one or a stored item's date |
| Watermark.IngestGrowsByStored | modules/rss_curator.py:309-332 | the store grows by exactly `new_items_count` documents |
| Watermark.WriteOnlyAfterStore | modules/rss_curator.py:332-333 | the metadata-write condition "new items or watermark changed" holds exactly when some item was stored |
| Watermark.IngestCovers | modules/rss_curator.py:309-328 | after ingestion every fresh considered entry's id is in the store and nothing was removed |
| Watermark.FreshUnderLaterWatermark | modules/rss_curator.py:174-184 | an entry fresh under a later watermark is fresh under an earlier one |
| Watermark.IngestNothingLeft | modules/reddit_curator.py:177-183 | re-reading entries that are all stored, under a watermark no earlier, stores nothing and keeps the watermark |
| Watermark.IngestIdempotent | modules/rss_curator.py:227-235 | running ingestion again over the same entries, from the watermark and store it left, stores nothing |
| ContentStore.KeepsChain | modules/rss_curator.py:227-261 | existing documents survive two successive stores untouched |
| ContentStore.StoreContent | modules/rss_curator.py:227-261 | stores exactly when the id is absent; a present id writes nothing; a stored record carries a score in [0,100] or -1 and `is_relevant` = score >= threshold when scoring is on, and no evaluation otherwise (also modules/reddit_curator.py:267-301) |
| Items.ScorerView | modules/rss_curator.py:238-243 | the dictionary passed to the scorer holds the title, the source type name, the description and, for Reddit, the content |
| Items.MetadataAfterRead | modules/rss_curator.py:105-124 | the record a metadata read leaves: the stored one, or a new one for that source with no watermark, total 0 and both stamps at the read time (also modules/reddit_curator.py:129-159) |
| Items.WrittenBack | modules/rss_curator.py:144-148 | the record after the conditional update: unchanged when nothing was stored, else the new watermark, the total grown by the stored count and `last_updated` stamped, name and creation time kept |
| RssCurator.PublishedDate | modules/rss_curator.py:153-156 | a missing or empty `published` gives no date; otherwise the parser's result |
| RssCurator.Candidates | modules/rss_curator.py:309-318 | one (fingerprint, date) pair per entry, in order |
| RssCurator.SliceLength | modules/rss_curator.py:300 | the length of `entries[:max_items_per_feed]` under Python slicing, negative limits included |
| RssCurator.ExtractContentData | modules/rss_curator.py:186-225 | the record's id is the hash of title, link and summary; title defaults to "No Title"; description is the summary, else the description, else ""; source fields name the feed; `created_at` and `processed_at` are the given time |
| RssCurator.MissingTitleHashesAsEmpty | modules/rss_curator.py:189-203 | a missing title is hashed as "" although it is stored as "No Title" |
| RssCurator.IdIgnoresOtherFields | modules/rss_curator.py:189-193 | only title, link and summary decide an entry's id |
| Wrappers.CountWhere | modules/rss_curator.py:381 | the count of reports with status `success` (also modules/reddit_curator.py:420) is at most the number of reports, and equals it exactly when every report succeeded |
| RssCurator.EmptyFeedListRaises | modules/rss_curator.py:389 | the summary as written has no value for an empty feed list (division by zero) |
| RssCurator.CycleSummaryOf | modules/rss_curator.py:379-390 | the summary counts successes (all of the reports exactly when each succeeded) out of the configured feeds and totals the new items, and agrees with the written code wherever that does not raise |
| RssCurator.TotalNewItemsSnoc | modules/rss_curator.py:380 | the total of new items grows by the new report's count |
| RssCurator.ReportsForSnoc | modules/rss_curator.py:371-377 | appending the report for the next feed keeps the reports aligned with the feed list |
| RssCurator.RssFeedCurator.constructor | modules/rss_curator.py:61-70 | `max_items_per_feed or 20`: a missing or zero limit becomes 20; the curator starts running |
| RssCurator.RssFeedCurator.GetRssMetadata | modules/rss_curator.py:105-135 | returns the stored metadata, or creates and stores a fresh record with no watermark and total 0 |
| RssCurator.RssFeedCurator.UpdateRssMetadata | modules/rss_curator.py:137-151 | sets the watermark, adds `items_processed` to the total and stamps the time; a missing record is left missing |
| RssCurator.RssFeedCurator.FetchFeed | modules/rss_curator.py:263-360 | a failing feed gives an error report; an empty feed a no-entries report; otherwise only the first `max_items_per_feed` entries are ingested by the watermark rule. On every path the metadata collection changes only at this feed's key: the record is the stored one, or one created at the start time; only when something was stored does it get the new watermark, total + new count and a fresh `last_updated`; every record a successful fetch adds is the `_extract_content_data` record of one considered entry, with a valid, thresholded evaluation exactly when scoring is on |
| RssCurator.RssFeedCurator.IngestFeed | modules/rss_curator.py:296-350 | for a feed with entries: the report follows the ingestion rule over the first `max_items_per_feed` entries from the stored watermark, the watermark moves only when items were stored, and the record is rewritten exactly then; every added record is the extracted record of one considered entry with its evaluation |
| RssCurator.RssFeedCurator.WriteBackRssMetadata | modules/rss_curator.py:331-333 | the record is rewritten by `_update_RSS_METADATA` exactly when items were stored (the watermark cannot move otherwise), and left as it was otherwise |
| RssCurator.RssFeedCurator.IngestEntries | modules/rss_curator.py:296-328 | the loop's store, new-item count and watermark are those of the ingestion rule over the considered entries; every record the loop adds is the extracted record of one of the entries, stamped at its creation time, with the evaluation `_store_content` merged in |
| RssCurator.RssFeedCurator.ConsiderEntryStep | modules/rss_curator.py:311-323 | one loop turn is one step of the ingestion rule, and the added records stay those of the entries looked at so far |
| RssCurator.RssFeedCurator.ConsiderEntry | modules/rss_curator.py:311-323 | an entry is stored exactly when it is fresh and its id is new; the watermark advances only over a stored entry; a stored entry is the only change to the store, and its document is `_extract_content_data` of the entry at the current time with a valid, thresholded evaluation exactly when scoring is on |
| RssCurator.RssFeedCurator.AddedFromEntriesSnoc | modules/rss_curator.py:311-323 | after one more loop turn, every added record is still the record of an entry looked at so far |
| RssCurator.RssFeedCurator.AddedEntriesAreFeedRecords | modules/rss_curator.py:186-225 | an added record is an RSS record of this feed without `human_approved`/`reel_generated`, and has a valid score exactly when scoring is on |
| RssCurator.RssFeedCurator.FetchFeedStep | modules/rss_curator.py:263-360 | the report names the feed, is an error exactly for a failing feed, and the store grows by its new-item count |
| RssCurator.RssFeedCurator.FetchMultipleFeeds | modules/rss_curator.py:362-392 | one report per feed in order while running, none once stopped; the store grows by the summary's total of new items. The summary returned is the corrected `CycleSummaryOf`, so an empty feed list gives a summary where the code as written raises (see Findings) |
| RssCurator.RssFeedCurator.FetchEachFeed | modules/rss_curator.py:371-377 | the loop over feeds keeps the reports aligned with the feeds and counts the new items |
| RssCurator.RssFeedCurator.Stop | modules/rss_curator.py:417-420 | clears `running` |
| RedditCurator.PostCandidates | modules/reddit_curator.py:342-361 | one (fingerprint of title, post id and subreddit; creation time) pair per post, in order |
| RedditCurator.CleanText | modules/reddit_curator.py:185-204 | empty text stays empty; the cleaned text is stripped |
| RedditCurator.Truncate | modules/reddit_curator.py:249 | at most 503 characters; short content is kept; long content is its first 500 characters plus "..." |
| RedditCurator.ReadingTimeMinutes | modules/reddit_curator.py:224-226 | at least 1; `word_count // 200` from 200 words on; 1 below 400 words |
| RedditCurator.FoundTags | modules/reddit_curator.py:229-240 | every tag is the title-cased form of a keyword occurring in the text, and every keyword occurring in the text gives its tag |
| RedditCurator.SelectionKeepsAll | modules/reddit_curator.py:243 | with at most 10 distinct candidate tags, `list(set(tags))[:10]` keeps every one of them |
| RedditCurator.Dedupe | modules/reddit_curator.py:243 | `set(tags)` as a sequence: distinct, with the same members |
| RedditCurator.RedditPostCurator.FindTags | modules/reddit_curator.py:237-240 | the append loop yields the tags of the keywords found, in keyword order |
| RedditCurator.RedditPostCurator.SelectTags | modules/reddit_curator.py:243 | `list(set(tags))[:10]`: distinct found tags, as many as there are distinct ones up to 10 |
| RedditCurator.RedditPostCurator.ExtractTags | modules/reddit_curator.py:229-243 | at most 10 distinct tags, each a title-cased keyword present in the lowercased title and content; with at most 10 distinct candidates, every present keyword's tag is among them |
| RedditCurator.PostRecord | modules/reddit_curator.py:245-263 | the record's id is the post's fingerprint; the description is the truncated content; both review flags start false; `created_at` and `processed_at` are the given time |
| RedditCurator.ConsideredCount | modules/reddit_curator.py:342-367 | the number of posts the loop considers: the limit, or all posts when fewer, or none for a limit of 0 or less |
| RedditCurator.EmptySubredditListRaises | modules/reddit_curator.py:428 | the summary as written has no value for an empty subreddit list (division by zero) |
| RedditCurator.CycleSummaryOf | modules/reddit_curator.py:418-429 | the summary counts successes (all of the reports exactly when each succeeded) out of the configured subreddits and totals the new posts, and agrees with the written code wherever that does not raise |
| RedditCurator.ReportsForSnoc | modules/reddit_curator.py:410-416 | appending the report for the next subreddit keeps the reports aligned |
| RedditCurator.RedditPostCurator.constructor | modules/reddit_curator.py:51-69 | keeps the post limit as given; the curator starts running |
| RedditCurator.RedditPostCurator.GetSubredditMetadata | modules/reddit_curator.py:129-159 | returns the stored metadata, or creates and stores a fresh record with no watermark and total 0 |
| RedditCurator.RedditPostCurator.UpdateSubredditMetadata | modules/reddit_curator.py:161-175 | sets the watermark, adds `posts_processed` to the total and stamps the time; a missing record is left missing |
| RedditCurator.RedditPostCurator.ExtractPostData | modules/reddit_curator.py:206-265 | the record built from the cleaned self-text, with tags chosen from the lowercased title and content |
| RedditCurator.RedditPostCurator.ConsiderPost | modules/reddit_curator.py:347-367 | a post is stored exactly when it is newer than the watermark and its id is new; the watermark advances only over a stored post; a stored post is the only change to the store, and its document is the `_extract_post_data` record (cleaned content, truncated description, tags from the keyword scan, both review flags false) created at the current time, with a valid, thresholded evaluation exactly when scoring is on |
| RedditCurator.RedditPostCurator.ConsiderStep | modules/reddit_curator.py:347-367 | one loop turn is one step of the ingestion rule, and the added records stay those of the posts looked at so far |
| RedditCurator.RedditPostCurator.IngestPosts | modules/reddit_curator.py:342-367 | `processed_posts` counts every considered post up to the limit; store, new count and watermark follow the ingestion rule over exactly those; every record the loop adds is the post record of one considered post, with its tags and evaluation |
| RedditCurator.RedditPostCurator.IngestCountedPosts | modules/reddit_curator.py:342-373 | the loop's outcome, with at most `processed` new posts and an unmoved watermark when none was stored |
| RedditCurator.RedditPostCurator.AddedFromPostsSnoc | modules/reddit_curator.py:347-367 | after one more loop turn, every added record is still the record of a post looked at so far |
| RedditCurator.RedditPostCurator.AddedPostsStartUnreviewed | modules/reddit_curator.py:259-260 | an added record is a Reddit record with `human_approved` and `reel_generated` both false, and has a valid score exactly when scoring is on |
| RedditCurator.RedditPostCurator.FetchSubreddit | modules/reddit_curator.py:303-399 | error report for a failing listing, no-posts report for an empty one; otherwise ingestion of the considered posts. On every path the metadata collection changes only at this subreddit's key: the stored record or one created at the start time, updated with watermark, total and `last_updated` only when posts were stored; every record a successful fetch adds is the post record of one considered post, with its tags and evaluation |
| RedditCurator.RedditPostCurator.IngestListing | modules/reddit_curator.py:333-380 | for a non-empty listing: the report follows the ingestion rule over the considered posts from the stored watermark, the watermark moves only when posts were stored, and the record is rewritten exactly then; every added record is the post record of one considered post |
| RedditCurator.RedditPostCurator.WriteBackSubredditMetadata | modules/reddit_curator.py:371-373 | the record is rewritten by `_update_subreddit_metadata` exactly when posts were stored, and left as it was otherwise |
| RedditCurator.RedditPostCurator.FetchSubredditStep | modules/reddit_curator.py:303-399 | the report names the subreddit, is an error exactly for a failing listing, and the store grows by its new-post count |
| RedditCurator.RedditPostCurator.FetchMultipleSubreddits | modules/reddit_curator.py:401-431 | one report per subreddit in order while running; the store grows by the summary's total of new posts. The summary returned is the corrected `CycleSummaryOf`, so an empty subreddit list gives a summary where the code as written raises (see Findings) |
| RedditCurator.RedditPostCurator.FetchEachSubreddit | modules/reddit_curator.py:410-416 | the loop over subreddits keeps the reports aligned and counts the new posts |
| RedditCurator.RedditPostCurator.Stop | modules/reddit_curator.py:456-458 | clears `running` |
| Relevance.FirstNumberToken | backend/modules/relevance_scorer.py:190 | the position of the leftmost standalone 1-3 digit number at or after `i` |
| Relevance.FirstNumberTokenSkips | backend/modules/relevance_scorer.py:190 | the search skips positions holding no such number |
| Relevance.FirstNumberScore | backend/modules/relevance_scorer.py:190-197 | a fallback score is in [0,100] |
| Relevance.FirstNumberScoreIsLeftmost | backend/modules/relevance_scorer.py:190-197 | the fallback score is the leftmost number if it is at most 100, otherwise none |
| Relevance.ScoreFromText | backend/modules/relevance_scorer.py:177-197 | a parsed score is in [0,100] |
| Relevance.ScoreOfReply | backend/modules/relevance_scorer.py:167-201 | a score comes only from a non-empty text reply, and is in [0,100]; a raising request or a raising `.text` gives none |
| Relevance.IntegerAnswerHasNoFallback | backend/modules/relevance_scorer.py:180-186 | a reply that parses as an integer gives that integer if in range, otherwise none, with no fallback |
| Relevance.TextAnswerUsesFirstNumber | backend/modules/relevance_scorer.py:187-197 | any other reply gives its leftmost standalone 1-3 digit number if at most 100, otherwise none |
| Relevance.PlainIntegerAnswer | backend/modules/relevance_scorer.py:180-183 | "85" scores 85 |
| Relevance.OutOfRangeIntegerAnswer | backend/modules/relevance_scorer.py:184-186 | "150" scores nothing |
| Relevance.SentenceAnswer | backend/modules/relevance_scorer.py:190-194 | "Score: 7" scores 7 |
| Relevance.LongNumberSkipped | backend/modules/relevance_scorer.py:190 | "1234 or 7" scores 7: a 4-digit run is not a standalone number |
| Relevance.FirstNumberTooLarge | backend/modules/relevance_scorer.py:192-197 | "x 101" scores nothing: the first number decides |
| Relevance.FirstUsable | backend/modules/relevance_scorer.py:116-123 | the first content field that is present and not blank |
| Relevance.CallTime | backend/modules/relevance_scorer.py:153-161 | a call happens now or, if the last one was under 30 seconds ago, 30 seconds after it |
| Relevance.ReplyScoreAt | backend/modules/relevance_scorer.py:211-213 | the i-th attempt's score is the parse of the i-th reply |
| Relevance.FirstScoreFrom | backend/modules/relevance_scorer.py:210-216 | the attempts stop at the first score; with none, all attempts are used |
| Relevance.FirstScoreStep | backend/modules/relevance_scorer.py:213-216 | an attempt with no score leads to the next one; one with a score ends the loop |
| Relevance.FirstScore | backend/modules/relevance_scorer.py:210-224 | at most `max_retries` calls, ending at the first score |
| Relevance.FirstScoreInRange | backend/modules/relevance_scorer.py:210-224 | the retry loop's score is in [0,100] |
| Relevance.DefaultThreshold | backend/modules/relevance_scorer.py:35 | with the default threshold 0, a valid score is relevant exactly when it is not -1 |
| Relevance.ScoresOf | backend/modules/relevance_scorer.py:286 | the scores of the results, in order |
| Relevance.CountIn | backend/modules/relevance_scorer.py:296-302 | a bucket counts at most all scores |
| Relevance.RelevantCount | backend/modules/relevance_scorer.py:287 | the relevant results are at most all results, and none exactly when no result is relevant |
| Relevance.SeqMin | backend/modules/relevance_scorer.py:294 | `min(scores)` is a score and at most every score |
| Relevance.SeqMax | backend/modules/relevance_scorer.py:295 | `max(scores)` is a score and at least every score |
| Relevance.ScoringStatistics | backend/modules/relevance_scorer.py:281-303 | empty input gives `{}`; otherwise the total is the input length, min and max are scores of the input bounding every score, the relevant count is `RelevantCount`, and the distribution is `DistributionOf` the scores (whose buckets the lemmas below characterise) |
| Relevance.BucketsPartition | backend/modules/relevance_scorer.py:296-302 | the five buckets add up to the number of scores in [0,100] |
| Relevance.FallbackInNoBucket | backend/modules/relevance_scorer.py:296-302 | a -1 score falls in no bucket |
| Relevance.BucketsCountScored | backend/modules/relevance_scorer.py:221-224 | with every score valid, the scores in [0,100] and the -1 scores make up all results |
| Relevance.OrDefault | backend/modules/relevance_scorer.py:57-63 | Python `x or default` on strings |
| Relevance.RelevanceScorer.constructor | backend/modules/relevance_scorer.py:54-63 | model name defaults to "gemini-2.5-pro", threshold 0, no calls made yet |
| Relevance.RelevanceScorer.PrepareContentForEvaluation | backend/modules/relevance_scorer.py:107-148 | Reddit posts always include the content; other sources the first usable content field, else only `Title: t` |
| Relevance.RelevanceScorer.CallGeminiApi | backend/modules/relevance_scorer.py:150-201 | calls are at least 30 seconds apart; one call is made; the score is the parse of its reply; `_api_working` becomes true once `generate_content` returns, even when reading its text then raises |
| Relevance.RelevanceScorer.RetryScoring | backend/modules/relevance_scorer.py:210-219 | the loop makes exactly the calls `FirstScore` counts and returns its score |
| Relevance.RelevanceScorer.CalculateRelevanceScore | backend/modules/relevance_scorer.py:203-245 | at most 3 calls; the score is the first parsed one, else -1; `is_relevant` is score >= threshold; criteria record the text length and source type |
| Relevance.RelevanceScorer.BatchCalculateScores | backend/modules/relevance_scorer.py:261-279 | one valid result per document, in input order, with non-decreasing evaluation times |
| ReelGeneration.SecondsValue | backend/modules/reel_generator.py:144-145 | the `(\d+)` group after `seconds:` and optional spaces |
| ReelGeneration.PleaseRetryInAt | backend/modules/reel_generator.py:143 | a match of `Please retry in (\d+(\.\d+)?)s` here, case-insensitive |
| ReelGeneration.SecondsFieldAt | backend/modules/reel_generator.py:145 | a match of `seconds:\s*(\d+)` here |
| ReelGeneration.RetryDelayBlockAt | backend/modules/reel_generator.py:144 | a match of `retry_delay\s*\{\s*seconds:\s*(\d+)` here |
| ReelGeneration.Search | backend/modules/reel_generator.py:149 | `re.search`: the leftmost match of a pattern |
| ReelGeneration.FirstMatch | backend/modules/reel_generator.py:148-153 | the patterns are tried in order and the first that matches decides |
| ReelGeneration.RetryDelay | backend/modules/reel_generator.py:137-161 | the delay is at least the 5-second buffer |
| ReelGeneration.ExtractRetryDelay | backend/modules/reel_generator.py:137-161 | the loop over patterns returns `RetryDelay` |
| ReelGeneration.RetryDelayExceedsRequest | backend/modules/reel_generator.py:151-153 | `int(d) + 5` exceeds the requested delay `d` by more than 4 seconds, so it is at least its ceiling |
| ReelGeneration.NoDelayMentionedGivesDefault | backend/modules/reel_generator.py:155-157 | a message that mentions no delay gives 60 |
| ReelGeneration.PleaseRetryInGivesWholeSeconds | backend/modules/reel_generator.py:143-153 | "Please retry in d.fs" gives the whole seconds of d plus 5 |
| ReelGeneration.PleaseRetryInExample | backend/modules/reel_generator.py:141-153 | "Please retry in 49.867907441s" gives 54 |
| ReelGeneration.Classify | backend/modules/reel_generator.py:169-201 | one attempt's verdict: a non-empty answer, a retry after the extracted delay, a retry after 10 seconds, or a stop |
| ReelGeneration.Verdicts | backend/modules/reel_generator.py:165-169 | the verdicts of the three attempts' replies |
| ReelGeneration.RequestOutcome | backend/modules/reel_generator.py:165-204 | at most 3 requests, at least one, and one wait between each two |
| ReelGeneration.RetriesFollowRetryVerdicts | backend/modules/reel_generator.py:175-197 | every wait belongs to a retryable verdict; an answer is returned at the last request; a failure ends on a non-answer |
| ReelGeneration.FirstAnswerReturned | backend/modules/reel_generator.py:171-173 | after retryable failures, the first non-empty text is returned at that attempt |
| ReelGeneration.NonRetryableErrorStops | backend/modules/reel_generator.py:188-201 | an error (from the request or from reading its text) mentioning no quota, retry or rate ends the loop after one request with no wait |
| ReelGeneration.WaitsAtLeastBuffer | backend/modules/reel_generator.py:189-193 | every wait is at least 5 seconds |
| ReelGeneration.ContinueResumes | backend/modules/reel_generator.py:165-204 | the loop resumed after some waits finishes as the outcome from that attempt |
| ReelGeneration.StripFences | backend/modules/reel_generator.py:223-227 | the cleaned reply is never longer |
| ReelGeneration.FencedReplyUnwrapped | backend/modules/reel_generator.py:223-227 | a ```` ```json … ``` ```` block with surrounding whitespace gives its body |
| ReelGeneration.UnfencedReplyOnlyStripped | backend/modules/reel_generator.py:223-227 | a reply with no fences is only stripped |
| ReelGeneration.UnflaggedNeverSelected | backend/modules/reel_generator.py:76-80 | an item lacking either review flag (every RSS record) is never selected |
| ReelGeneration.Marked | backend/modules/reel_generator.py:275-278 | marking sets `reel_generated` and its time only, so the item is no longer selected |
| ReelGeneration.MarkingAddsOne | backend/modules/reel_generator.py:316-318 | marking one more selected idea adds it to the marked ones |
| ReelGeneration.Settle | backend/modules/reel_generator.py:307-330 | once every selected idea was handled, each item is unchanged or a selected idea marked |
| ReelGeneration.Advance | backend/modules/reel_generator.py:307-330 | handling one more idea extends the history and adds one marked idea exactly when it was marked |
| ReelGeneration.ReelsPerIdeaOr | backend/modules/reel_generator.py:34-42 | `reels_per_idea or 2` |
| ReelGeneration.ReelGenerator.constructor | backend/modules/reel_generator.py:34-42 | keeps the collaborators; `reels_per_idea` defaults to 2 |
| ReelGeneration.ReelGenerator.GetApprovedRawIdeas | backend/modules/reel_generator.py:72-95 | exactly the approved, not yet generated ideas, each once |
| ReelGeneration.ReelGenerator.Judge | backend/modules/reel_generator.py:169-201 | the verdict of one reply is `Classify` of it; a method only because the rate-limit delay comes from the `ExtractRetryDelay` loop |
| ReelGeneration.ReelGenerator.Attempt | backend/modules/reel_generator.py:166-169 | one request, whose verdict is that attempt's |
| ReelGeneration.ReelGenerator.MakeGeminiRequestWithRetry | backend/modules/reel_generator.py:163-204 | the text, requests and total sleep are those of `RequestOutcome` |
| ReelGeneration.ReelGenerator.GenerateReelsForIdea | backend/modules/reel_generator.py:206-245 | no text or an empty one gives no reels; otherwise the decoded, fence-stripped reply, kept even when its length differs from `reels_per_idea` |
| ReelGeneration.ReelGenerator.SaveReels | backend/modules/reel_generator.py:247-269 | an empty list writes nothing and fails; otherwise every reel is appended |
| ReelGeneration.ReelGenerator.MarkRawIdeaAsProcessed | backend/modules/reel_generator.py:271-285 | succeeds exactly for an existing document, which is marked; otherwise nothing changes |
| ReelGeneration.ReelGenerator.ProcessIdea | backend/modules/reel_generator.py:309-325 | an idea is processed exactly when reels came back; they are saved, and only then is the idea marked; the save and mark failures the source counts are shown unreachable, since the reels are non-empty and the record exists |
| ReelGeneration.ReelGenerator.ProcessNext | backend/modules/reel_generator.py:307-330 | one idea moves the counters by one and keeps processed = marked and processed <= generated |
| ReelGeneration.ReelGenerator.ProcessAllApprovedIdeas | backend/modules/reel_generator.py:287-341 | processed + failed = selected ideas; generated = reels appended; success iff some idea processed or none selected; only selected ideas are marked, exactly the processed ones |
| ConfigCache.LookupSound | backend/modules/config_manager.py:66-94 | a document comes from the cache or the collection; none exactly when unreachable or absent; the cache only gains the fetched document under a new timestamp |
| ConfigCache.FetchThenHit | backend/modules/config_manager.py:68-75 | after a fetch the same id is served from the cache for the next 300 seconds, whatever the collection then holds |
| ConfigCache.SharedStampRevalidates | backend/modules/config_manager.py:81-86 | the one shared timestamp: fetching one document revalidates every other cached one |
| ConfigCache.ExpiredCacheRefetches | backend/modules/config_manager.py:57-64 | once the timestamp is 300 seconds old, the collection is read again |
| ConfigCache.RefreshedCacheRefetches | backend/modules/config_manager.py:168-172 | after a refresh the next lookup reads the collection and caches what it finds |
| ConfigCache.Setting | backend/modules/config_manager.py:100-101 | `data and key in data`: the value when the document was found and holds the key |
| ConfigCache.ReelsPerIdeaStoredInt | backend/modules/config_manager.py:221-232 | a stored integer is returned as it is |
| ConfigCache.ReelsPerIdeaStoredText | backend/modules/config_manager.py:221-232 | a count stored as decimal text is converted back to it |
| ConfigCache.ReelsPerIdeaFallsBack | backend/modules/config_manager.py:221-232 | a missing document or key, or a value `int` refuses, gives 2 |
| ConfigCache.PromptOr | backend/modules/config_manager.py:96-112 | the stored prompt when present, otherwise the built-in one |
| ConfigCache.ConfigManager.constructor | backend/modules/config_manager.py:33-41 | starts with an empty cache and no timestamp |
| ConfigCache.ConfigManager.GetFromFirestore | backend/modules/config_manager.py:66-94 | the document and the new cache are those `Lookup` gives |
| ConfigCache.ConfigManager.GetSystemPrompt | backend/modules/config_manager.py:96-112 | the stored relevance prompt, or the built-in one |
| ConfigCache.ConfigManager.GetRssFeedUrls | backend/modules/config_manager.py:114-124 | the stored feed list, or [] |
| ConfigCache.ConfigManager.GetRedditSubreddits | backend/modules/config_manager.py:126-136 | the stored subreddit list, or [] |
| ConfigCache.ConfigManager.GetReelPrompt | backend/modules/config_manager.py:183-219 | the stored reel prompt, or the built-in one |
| ConfigCache.ConfigManager.GetReelsPerIdea | backend/modules/config_manager.py:221-232 | `int(value)` when present and convertible, else 2 |
| ConfigCache.ConfigManager.RefreshCache | backend/modules/config_manager.py:168-172 | the cache is emptied and no longer valid |
| ConfigCache.ConfigManager.GetCacheInfo | backend/modules/config_manager.py:174-181 | the size counts exactly the listed documents; validity is the 300-second test |
| CycleWait.ShutdownFlag.constructor | modules/helper.py:15 | the flag starts false |
| CycleWait.ShutdownFlag.GetShutdownRequested | modules/helper.py:30-32 | returns the current flag |
| CycleWait.ShutdownFlag.ResetShutdownRequested | modules/helper.py:34-37 | the flag is false afterwards |
| CycleWait.ShutdownFlag.RequestShutdown | modules/helper.py:17-28 | the flag is true afterwards |
| CycleWait.Decompose | modules/helper.py:68-70 | hours·3600 + minutes·60 + seconds = remaining, minutes < 60, seconds < 60 |
| CycleWait.DecomposeUnits | modules/helper.py:72-77 | hours are shown exactly from 3600 seconds on, minutes (or hours) from 60 on |
| CycleWait.TimeString | modules/helper.py:72-77 | the display always ends in "s" |
| CycleWait.LastMinuteReadsBack | modules/helper.py:76-77 | under a minute the display is the number of seconds followed by "s" |
| CycleWait.LinesStep | modules/helper.py:63-82 | one more second of waiting adds the line for the seconds then remaining, if shown |
| CycleWait.LinesExactly | modules/helper.py:67 | a count is shown exactly when the wait reached it and it is a multiple of 300 or at most 60 |
| CycleWait.ShortWait | modules/helper.py:42-53 | at most `interval_seconds` one-second sleeps, stopping at the first poll the check answers true |
| CycleWait.CountdownWait | modules/helper.py:56-82 | `remaining` goes down by one per sleep to 0, stopping early on a true poll; the lines shown are `Lines` |
| CycleWait.WaitForNextCycle | modules/helper.py:40-82 | the clock advances by the sleeps made, at most `interval_seconds`; no poll before the end answered true, and an early end follows a true poll; the countdown only for a minute or more |

## Left out

- The Firestore, Reddit, feedparser and Gemini clients are left out. They are modelled as collections, function parameters and a call counter. Connection set-up (`_initialize_firestore`, `_initialize_reddit`, `_initialize_gemini` and its fallback models) is also left out.
- Logging, box-drawing output and the log-only counters are not modelled.
- The success-rate percentages, averages and `relevance_rate` are floating point and are not modelled. The summary keeps their integer ingredients.
- `get_feed_statistics` and `get_subreddit_statistics` are not modelled. They are read-only reports over the metadata collections.
- md5 is left out: the hash is an injective constructor over its input text.
- Date parsing (`_parse_feed_date`), `urlparse(...).netloc`, markdown stripping inside `_clean_text` and `json.loads` are left out. They are function parameters (oracles). The oracles for reel replies return a list of reels, so a JSON value that is not a list is not modelled.
- PyText.Lower: `str.lower` is modelled on the ASCII letters A-Z only; other characters are left as they are. Python lowercases all of Unicode, so for Reddit tag detection (modules/reddit_curator.py:229) a title such as "OPENAİ" (capital I with dot above) gives the tags "Openai" and "Ai" in Python but none in the model, and "NEURAL NETWORK" spelt with the Kelvin sign for its K gives "Neural Network" in Python only. The same reading applies to the rate-limit test on error messages.
- PRAW's `created_utc` is a float; the `Submission` datatype takes it as whole seconds, so `datetime.fromtimestamp` (modules/reddit_curator.py:182) and the watermark comparison see no fractional part.
- The regular expressions are modelled in their ASCII reading. `re.IGNORECASE`, `\d`, `\s` and `\b` are not extended to other Unicode letters and digits. `str.strip` uses Python's whitespace set.
- ReelGeneration.ExtractRetryDelay: `float` then `int` is modelled as exact truncation of the decimal text. Floating-point rounding is not modelled: neither of very long fractions, nor of integer parts beyond 2^53, which `float` rounds to a nearby double.
- ReelGeneration.ExtractRetryDelay: a capture too large for a double (about 1.8 * 10^308 and above) becomes `inf` in Python, `int(inf)` raises OverflowError and the `except` branch returns 60 (backend/modules/reel_generator.py:158-160); the model returns the captured value + 5 instead.
- Relevance.RelevanceScorer.CalculateRelevanceScore: the outer `except` branch (score -1, model "error") is not modelled. Every step it guards is total in the model.
- Relevance.RelevanceScorer.BatchCalculateScores: it states range, order and threshold per result, not each result's exact score against the replies as `CalculateRelevanceScore` does.
- The score's evaluation timestamp is the model clock, not wall-clock UTC time.
- The runner classes are not modelled: they construct objects and delegate. This also leaves out `RelevanceScorerRunner`'s `min_score` override and the runners' exception handling around a cycle.
- The signal handler's `sys.exit`, the signal registration, and the `while not get_shutdown_requested()` loops of the two `main.py` files are not modelled. The check passed to the wait is a function from the poll index to a boolean.
- The order of `set` and query results is arbitrary in the model. This covers the tag order after `list(set(tags))`, the order of approved ideas from the query, and the `cached_documents` list, which is modelled as a set.
- The environment-variable getters of the configuration manager (backend/modules/config_manager.py:138-166) are not modelled.
- The default prompt texts and the reel prompt template (`generate_reel_prompt`) are left out. The built-in prompt is the constant `BuiltInDefault`, and a reel prompt is identified by the idea and `reels_per_idea`.
- ConfigCache.ConfigManager.GetFromFirestore: a read that raises on a connected manager (the exception `_get_from_firestore` swallows, returning None without touching the cache) is not modelled. The function `ConfigCache.Lookup` can express that result through its unreachable-collection case, `Lookup(None, ...)`, but the class always reads `db.settings` when `db` is present, so a connected manager's read never fails there.
- `int(value)` on a stored float is not modelled. The settings values are text, integers, booleans, lists of text and null.
- The reading time of a Reddit post is computed but never stored in the record, so the record does not carry it.
- `process_all_approved_ideas` returns no `failed_ideas` entry when no idea is selected. The model reports 0 there.
- A failing batch commit, a failing document update and an exception inside the idea loop are not modelled: the store operations always succeed on existing documents.
- `feed.bozo` only produces a warning log, so it is not modelled.
- ContentStore.StoreContent: the branch for a scorer that raises (score -1, model "error", modules/rss_curator.py:244-252) is not modelled. The scorer's `calculate_relevance_score` catches every exception itself, so in the composed model it never raises.
- A failing Firestore read or write inside `_store_content` is not modelled, so storing a new item always succeeds.
- The Reddit listing is a parameter: the request for `2 * max_posts_per_subreddit` hot posts belongs to that oracle, and the model caps the posts it considers itself.

## Findings

| source | as written | input that shows it | evidently intended | confidence | as-written member | corrected member |
|---|---|---|---|---|---|---|
| modules/rss_curator.py:389 | the success rate divides by `len(feed_urls)` | an empty feed list, which is what `get_rss_feed_urls` returns when nothing is configured | report the cycle without dividing by zero | not executed | RssCurator.EmptyFeedListRaises | RssCurator.CycleSummaryOf |
| modules/reddit_curator.py:428 | the success rate divides by `len(subreddit_names)` | an empty subreddit list, which is what `get_reddit_subreddits` returns when nothing is configured | report the cycle without dividing by zero | not executed | RedditCurator.EmptySubredditListRaises | RedditCurator.CycleSummaryOf |
