/**
 * `_store_content`, which the RSS and the Reddit curator share word for
 * word: a record whose id is already in `RAW_IDEAS` is refused; otherwise
 * it is scored when scoring is on and written.
 */
module ContentStore {
  import opened Wrappers
  import opened Fingerprint
  import opened Items
  import opened Services
  import opened Relevance

  /** `after` still holds every record of `before`, unchanged. */
  predicate Keeps(before: map<Digest, Item>, after: map<Digest, Item>) {
    forall k :: k in before ==> k in after && after[k] == before[k]
  }

  lemma KeepsChain(a: map<Digest, Item>, b: map<Digest, Item>, c: map<Digest, Item>)
    requires Keeps(a, b) && Keeps(b, c)
    ensures Keeps(a, c)
  {
  }

  /** `k` names a record of `after` that `before` lacks. */
  predicate Added(before: map<Digest, Item>, after: map<Digest, Item>, k: Digest) {
    k in after && k !in before
  }

  /** The record as written: the extracted fields with the scorer's evaluation merged in. */
  predicate WrittenAs(item: Item, written: Item, scoring: bool, minScore: int) {
    && written == item.(evaluation := written.evaluation)
    && (written.evaluation.Some? <==> scoring)
    && (scoring ==>
      && ValidScore(written.evaluation.value.relevanceScore)
      && written.evaluation.value.isRelevant == (written.evaluation.value.relevanceScore >= minScore))
  }

  /**
   * Stores `item` unless a document with its id exists; returns whether it
   * was written. Existing documents are never touched.
   */
  method StoreContent(db: Firestore, scorer: RelevanceScorer, scoring: bool, item: Item) returns (stored: bool)
    modifies db`rawIdeas, scorer`calls, scorer`lastApiCall, scorer`apiWorking, scorer.clock
    ensures stored <==> item.id !in old(db.rawIdeas)
    ensures Keeps(old(db.rawIdeas), db.rawIdeas)
    ensures !stored ==> db.rawIdeas == old(db.rawIdeas)
    ensures stored ==>
      && item.id in db.rawIdeas
      && db.rawIdeas == old(db.rawIdeas)[item.id := db.rawIdeas[item.id]]
      && WrittenAs(item, db.rawIdeas[item.id], scoring, scorer.minScore)
    ensures !scoring ==> scorer.calls == old(scorer.calls) && scorer.clock.now == old(scorer.clock.now)
    ensures scorer.clock.now >= old(scorer.clock.now)
  {
    if item.id in db.rawIdeas {
      return false;
    }
    var written := item;
    if scoring {
      var e := scorer.CalculateRelevanceScore(ScorerView(item));
      written := item.(evaluation := Some(e));
    } else {
      written := item.(evaluation := None);
    }
    db.rawIdeas := db.rawIdeas[item.id := written];
    stored := true;
  }
}
