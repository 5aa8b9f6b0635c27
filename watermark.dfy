/**
 * The incremental-ingestion rule shared by the RSS and the Reddit curator:
 * an entry is a candidate when it is newer than the source's watermark
 * (or carries no usable date), it is stored when its id is not yet in the
 * store, and the watermark is carried forward as the running maximum of
 * the publication dates of the entries that were stored.
 */
module Watermark {
  import opened Wrappers
  import opened Fingerprint

  /** An entry as the ingestion loop sees it: its document id and its parsed publication time. */
  datatype Candidate = Candidate(id: Digest, date: Option<int>)

  /**
   * `_is_new_content`: true without a watermark or without a parsed date,
   * else only for a date strictly after the watermark.
   */
  predicate IsFresh(date: Option<int>, watermark: Option<int>) {
    watermark.None? || date.None? || date.value > watermark.value
  }

  /** `a` is no earlier than `b`, where a missing time is earlier than every time. */
  predicate AtLeast(a: Option<int>, b: Option<int>) {
    b.None? || (a.Some? && a.value >= b.value)
  }

  /** `if date and (not latest or date > latest): latest = date`. */
  function Advance(latest: Option<int>, date: Option<int>): (r: Option<int>)
    ensures AtLeast(r, latest) && AtLeast(r, date)
    ensures r == latest || r == date
  {
    if date.Some? && (latest.None? || date.value > latest.value) then date else latest
  }

  /** The loop state: ids present in the store, entries stored so far, running watermark. */
  datatype Progress = Progress(keys: set<Digest>, stored: seq<Candidate>, latest: Option<int>)

  /** One iteration of the loop; `last` is the watermark read before the loop. */
  function Step(p: Progress, c: Candidate, last: Option<int>): Progress {
    if IsFresh(c.date, last) && c.id !in p.keys
    then Progress(p.keys + {c.id}, p.stored + [c], Advance(p.latest, c.date))
    else p
  }

  /** The loop over the considered entries, starting from the store's ids and `latest = last`. */
  function Ingest(cs: seq<Candidate>, last: Option<int>, keys: set<Digest>): Progress
  {
    if cs == [] then Progress(keys, [], last)
    else Step(Ingest(cs[..|cs| - 1], last, keys), cs[|cs| - 1], last)
  }

  /** The loop over `cs + [c]` is the loop over `cs` followed by one step. */
  lemma IngestSnoc(cs: seq<Candidate>, c: Candidate, last: Option<int>, keys: set<Digest>)
    ensures Ingest(cs + [c], last, keys) == Step(Ingest(cs, last, keys), c, last)
  {
    assert (cs + [c])[..|cs|] == cs;
  }

  function StoredIds(stored: seq<Candidate>): set<Digest> {
    set c | c in stored :: c.id
  }

  /**
   * Every stored entry was considered, was fresh and was absent from the
   * store; no id is stored twice; the store gains exactly the stored ids.
   */
  lemma {:induction false} IngestStores(cs: seq<Candidate>, last: Option<int>, keys: set<Digest>)
    ensures var p := Ingest(cs, last, keys);
      && |p.stored| <= |cs|
      && p.keys == keys + StoredIds(p.stored)
      && (forall i :: 0 <= i < |p.stored| ==> p.stored[i] in cs && IsFresh(p.stored[i].date, last) && p.stored[i].id !in keys)
      && (forall i, j :: 0 <= i < j < |p.stored| ==> p.stored[i].id != p.stored[j].id)
  {
    if cs != [] {
      var init := cs[..|cs| - 1];
      IngestStores(init, last, keys);
      var q := Ingest(init, last, keys);
      var c := cs[|cs| - 1];
      if IsFresh(c.date, last) && c.id !in q.keys {
        assert StoredIds(q.stored + [c]) == StoredIds(q.stored) + {c.id};
        forall i | 0 <= i < |q.stored| ensures (q.stored + [c])[i].id != c.id {
          assert q.stored[i].id in StoredIds(q.stored);
        }
      }
    }
  }

  /**
   * The watermark never falls below the one read before the loop, is at
   * least the date of every stored entry, and is either the old watermark
   * or the date of a stored entry.
   */
  lemma {:induction false} IngestWatermark(cs: seq<Candidate>, last: Option<int>, keys: set<Digest>)
    ensures var p := Ingest(cs, last, keys);
      && AtLeast(p.latest, last)
      && (forall i :: 0 <= i < |p.stored| ==> AtLeast(p.latest, p.stored[i].date))
      && (p.latest == last || exists i :: 0 <= i < |p.stored| && p.stored[i].date == p.latest)
  {
    if cs != [] {
      var init := cs[..|cs| - 1];
      IngestWatermark(init, last, keys);
      var q := Ingest(init, last, keys);
      var c := cs[|cs| - 1];
      if IsFresh(c.date, last) && c.id !in q.keys {
        var s := q.stored + [c];
        assert s[|q.stored|] == c;
        if q.latest != last && Advance(q.latest, c.date) == q.latest {
          var i :| 0 <= i < |q.stored| && q.stored[i].date == q.latest;
          assert s[i].date == q.latest;
        }
      }
    }
  }

  /** The store grows by exactly one document per stored entry. */
  lemma {:induction false} IngestGrowsByStored(cs: seq<Candidate>, last: Option<int>, keys: set<Digest>)
    ensures var p := Ingest(cs, last, keys); |p.keys| == |keys| + |p.stored|
  {
    if cs != [] {
      IngestGrowsByStored(cs[..|cs| - 1], last, keys);
    }
  }

  /** Nothing stored means the watermark is unchanged, so the metadata write condition is "something was stored". */
  lemma WriteOnlyAfterStore(cs: seq<Candidate>, last: Option<int>, keys: set<Digest>)
    ensures var p := Ingest(cs, last, keys);
      (|p.stored| > 0 || p.latest != last) <==> |p.stored| > 0
  {
    IngestWatermark(cs, last, keys);
  }

  /** After the loop the store holds the id of every considered entry that was fresh. */
  lemma {:induction false} IngestCovers(cs: seq<Candidate>, last: Option<int>, keys: set<Digest>)
    ensures keys <= Ingest(cs, last, keys).keys
    ensures forall c :: c in cs && IsFresh(c.date, last) ==> c.id in Ingest(cs, last, keys).keys
  {
    if cs != [] {
      var init := cs[..|cs| - 1];
      IngestCovers(init, last, keys);
      assert forall c :: c in cs ==> c in init || c == cs[|cs| - 1];
    }
  }

  /** A later watermark only narrows the fresh entries. */
  lemma FreshUnderLaterWatermark(date: Option<int>, last: Option<int>, w: Option<int>)
    requires AtLeast(w, last) && IsFresh(date, w)
    ensures IsFresh(date, last)
  {
  }

  /** With every fresh id already stored and a watermark no earlier, a pass stores nothing. */
  lemma {:induction false} IngestNothingLeft(cs: seq<Candidate>, last: Option<int>, w: Option<int>, keys: set<Digest>)
    requires AtLeast(w, last)
    requires forall c :: c in cs && IsFresh(c.date, last) ==> c.id in keys
    ensures Ingest(cs, w, keys) == Progress(keys, [], w)
  {
    if cs != [] {
      var init := cs[..|cs| - 1];
      assert forall c :: c in init ==> c in cs;
      IngestNothingLeft(init, last, w, keys);
      var c := cs[|cs| - 1];
      if IsFresh(c.date, w) {
        FreshUnderLaterWatermark(c.date, last, w);
      }
    }
  }

  /**
   * Re-running ingestion over the same entries, with the store and the
   * watermark the first run left behind, stores nothing and keeps the
   * watermark.
   */
  lemma IngestIdempotent(cs: seq<Candidate>, last: Option<int>, keys: set<Digest>)
    ensures var p := Ingest(cs, last, keys);
      Ingest(cs, p.latest, p.keys) == Progress(p.keys, [], p.latest)
  {
    var p := Ingest(cs, last, keys);
    IngestCovers(cs, last, keys);
    IngestWatermark(cs, last, keys);
    IngestNothingLeft(cs, last, p.latest, p.keys);
  }
}
