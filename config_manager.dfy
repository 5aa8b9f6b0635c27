/**
 * The configuration manager: settings documents read from the SETTINGS
 * collection through a dictionary cache that shares one timestamp, and the
 * getters that fall back to defaults when a setting is missing.
 */
module ConfigCache {
  import opened Wrappers
  import opened Items
  import opened PyText
  import opened Services

  /** `_cache_ttl`: cached documents are served for 300 seconds after the last fetch. */
  const CacheTtl: int := 300

  /** The value `get_reels_per_idea` falls back to. */
  const DefaultReelsPerIdea: int := 2

  /** The cache is valid iff a timestamp exists and fewer than `CacheTtl` seconds have passed since it. */
  predicate Fresh(stamp: Option<int>, now: int) {
    stamp.Some? && now - stamp.value < CacheTtl
  }

  /** The cache as a value: the cached documents and the one timestamp they share. */
  datatype Cache = Cache(entries: map<string, Doc>, stamp: Option<int>)

  /**
   * `_get_from_firestore`: the document returned and the cache afterwards,
   * given the SETTINGS collection (None when there is no connection), the
   * cache before, the time and the document id.
   */
  function Lookup(settings: Option<map<string, Doc>>, c: Cache, now: int, id: string): (r: (Option<Doc>, Cache))
  {
    if settings.None? then (None, c)
    else if Fresh(c.stamp, now) && id in c.entries then (Some(c.entries[id]), c)
    else if id in settings.value then
      (Some(settings.value[id]), Cache(c.entries[id := settings.value[id]], Some(now)))
    else (None, c)
  }

  /**
   * A lookup returns a document only from the cache or from the collection,
   * and returns none exactly when the collection is unreachable or the id
   * is in neither; the cache only ever gains the fetched document.
   */
  lemma LookupSound(settings: Option<map<string, Doc>>, c: Cache, now: int, id: string)
    ensures var (data, after) := Lookup(settings, c, now, id);
      && (data.Some? ==>
            (id in c.entries && data.value == c.entries[id])
            || (settings.Some? && id in settings.value && data.value == settings.value[id]))
      && (data.None? <==> settings.None? || (id !in settings.value && !(Fresh(c.stamp, now) && id in c.entries)))
      && (after == c || (data.Some? && after == Cache(c.entries[id := data.value], Some(now))))
  {
  }

  /**
   * After a successful fetch, the same id is served from the cache for the
   * next `CacheTtl` seconds without touching it, whatever the collection
   * holds by then.
   */
  lemma FetchThenHit(settings: map<string, Doc>, later: Option<map<string, Doc>>, c: Cache, now: int, id: string, t: int)
    requires id in settings && !(Fresh(c.stamp, now) && id in c.entries)
    requires later.Some? && now <= t < now + CacheTtl
    ensures var (_, afterFetch) := Lookup(Some(settings), c, now, id);
      Lookup(later, afterFetch, t, id) == (Some(settings[id]), afterFetch)
  {
  }

  /**
   * The timestamp is shared: fetching one document makes every other cached
   * document valid again, however long ago it was loaded.
   */
  lemma SharedStampRevalidates(settings: map<string, Doc>, c: Cache, now: int, id: string, other: string)
    requires id in settings && !Fresh(c.stamp, now)
    requires other in c.entries && other != id
    ensures var (_, afterFetch) := Lookup(Some(settings), c, now, id);
      Lookup(Some(settings), afterFetch, now, other) == (Some(c.entries[other]), afterFetch)
  {
  }

  /** Once the timestamp is `CacheTtl` seconds old, a lookup reads the collection's current document. */
  lemma ExpiredCacheRefetches(settings: map<string, Doc>, c: Cache, now: int, id: string)
    requires c.stamp.Some? && now >= c.stamp.value + CacheTtl
    ensures Lookup(Some(settings), c, now, id).0 == if id in settings then Some(settings[id]) else None
  {
  }

  /** After `refresh_cache`, the next lookup returns what the collection holds. */
  lemma RefreshedCacheRefetches(settings: map<string, Doc>, now: int, id: string)
    ensures var (data, after) := Lookup(Some(settings), Cache(map[], None), now, id);
      && data == (if id in settings then Some(settings[id]) else None)
      && (id in settings ==> after == Cache(map[id := settings[id]], Some(now)))
  {
  }

  /** `data and key in data`: the setting when the document was found and holds the key. */
  function Setting(data: Option<Doc>, key: string): (v: Option<Value>)
    ensures v.Some? <==> data.Some? && key in data.value
    ensures v.Some? ==> v.value == data.value[key]
  {
    if data.Some? && data.value != map[] && key in data.value then Some(data.value[key]) else None
  }

  /** Python `int(value)`: None where `int` raises ValueError or TypeError. */
  function IntOf(v: Value): Option<int>
  {
    match v
    case Int(i) => Some(i)
    case Str(s) => ParseInt(s)
    case Bool(b) => Some(if b then 1 else 0)
    case StrList(_) => None
    case Null => None
  }

  /** `get_reels_per_idea` over the fetched PROMPTS document. */
  function ReelsPerIdea(data: Option<Doc>): int
  {
    var v := Setting(data, "reels_per_idea");
    if v.Some? && IntOf(v.value).Some? then IntOf(v.value).value else DefaultReelsPerIdea
  }

  /** A stored integer is used as it is. */
  lemma ReelsPerIdeaStoredInt(data: Doc, i: int)
    requires "reels_per_idea" in data && data["reels_per_idea"] == Int(i)
    ensures ReelsPerIdea(Some(data)) == i
  {
  }

  /** A count stored as its decimal text is read back as that count. */
  lemma ReelsPerIdeaStoredText(data: Doc, n: nat)
    requires "reels_per_idea" in data && data["reels_per_idea"] == Str(NatToString(n))
    ensures ReelsPerIdea(Some(data)) == n
  {
    ParseIntOfNatToString(n);
  }

  /** A missing document, a missing key or a value `int` refuses gives the default of 2. */
  lemma ReelsPerIdeaFallsBack(data: Option<Doc>)
    requires data.None? || "reels_per_idea" !in data.value || IntOf(data.value["reels_per_idea"]).None?
    ensures ReelsPerIdea(data) == DefaultReelsPerIdea
  {
  }

  /**
   * What a prompt getter returns: the stored value, or the built-in default
   * prompt (whose text is not part of this model).
   */
  datatype PromptText = Stored(value: Value) | BuiltInDefault

  function PromptOr(v: Option<Value>): (p: PromptText)
    ensures p.Stored? <==> v.Some?
    ensures p.Stored? ==> p.value == v.value
  {
    if v.Some? then Stored(v.value) else BuiltInDefault
  }

  /** `get_cache_info`; the listed documents are kept as a set (the list's order is not modelled). */
  datatype CacheInfo = CacheInfo(cacheSize: nat, cacheTimestamp: Option<int>, cacheValid: bool, cachedDocuments: set<string>)

  class ConfigManager {
    /** `self.db`: null when the Firestore connection could not be set up. */
    const db: Firestore?
    const clock: Clock
    var cache: map<string, Doc>
    var cacheTimestamp: Option<int>

    /** `__init__` after `_initialize_firestore` has produced `db` (or failed, giving null). */
    constructor (db: Firestore?, clock: Clock)
      ensures this.db == db && this.clock == clock
      ensures cache == map[] && cacheTimestamp == None
    {
      this.db := db;
      this.clock := clock;
      cache := map[];
      cacheTimestamp := None;
    }

    /** The SETTINGS collection as the manager can reach it. */
    function Settings(): Option<map<string, Doc>>
      reads this, db
    {
      if db == null then None else Some(db.settings)
    }

    /** `_is_cache_valid`. */
    predicate IsCacheValid()
      reads this, clock
    {
      Fresh(cacheTimestamp, clock.now)
    }

    /** `_get_from_firestore`: the document and the new cache are those `Lookup` gives. */
    method GetFromFirestore(id: string) returns (data: Option<Doc>)
      modifies this`cache, this`cacheTimestamp
      ensures (data, Cache(cache, cacheTimestamp)) == Lookup(Settings(), Cache(old(cache), old(cacheTimestamp)), clock.now, id)
    {
      if db == null {
        return None;
      }
      if IsCacheValid() && id in cache {
        return Some(cache[id]);
      }
      if id in db.settings {
        var doc := db.settings[id];
        cache := cache[id := doc];
        cacheTimestamp := Some(clock.now);
        return Some(doc);
      }
      return None;
    }

    /** `get_system_prompt`: the stored relevance prompt, or the built-in one. */
    method GetSystemPrompt() returns (p: PromptText)
      modifies this`cache, this`cacheTimestamp
      ensures var (data, after) := Lookup(Settings(), Cache(old(cache), old(cacheTimestamp)), clock.now, "PROMPTS");
        Cache(cache, cacheTimestamp) == after && p == PromptOr(Setting(data, "relevance_score_system_prompt"))
    {
      var data := GetFromFirestore("PROMPTS");
      p := PromptOr(Setting(data, "relevance_score_system_prompt"));
    }

    /** `get_rss_feed_urls`: the stored list, or the empty list. */
    method GetRssFeedUrls() returns (v: Value)
      modifies this`cache, this`cacheTimestamp
      ensures var (data, after) := Lookup(Settings(), Cache(old(cache), old(cacheTimestamp)), clock.now, "SOURCES");
        Cache(cache, cacheTimestamp) == after && v == Setting(data, "rss_feed_urls").GetOr(StrList([]))
    {
      var data := GetFromFirestore("SOURCES");
      v := Setting(data, "rss_feed_urls").GetOr(StrList([]));
    }

    /** `get_reddit_subreddits`: the stored list, or the empty list. */
    method GetRedditSubreddits() returns (v: Value)
      modifies this`cache, this`cacheTimestamp
      ensures var (data, after) := Lookup(Settings(), Cache(old(cache), old(cacheTimestamp)), clock.now, "SOURCES");
        Cache(cache, cacheTimestamp) == after && v == Setting(data, "reddit_subreddits").GetOr(StrList([]))
    {
      var data := GetFromFirestore("SOURCES");
      v := Setting(data, "reddit_subreddits").GetOr(StrList([]));
    }

    /** `get_reel_prompt`: the stored reel prompt, or the built-in one. */
    method GetReelPrompt() returns (p: PromptText)
      modifies this`cache, this`cacheTimestamp
      ensures var (data, after) := Lookup(Settings(), Cache(old(cache), old(cacheTimestamp)), clock.now, "PROMPTS");
        Cache(cache, cacheTimestamp) == after && p == PromptOr(Setting(data, "reel_prompt"))
    {
      var data := GetFromFirestore("PROMPTS");
      p := PromptOr(Setting(data, "reel_prompt"));
    }

    /** `get_reels_per_idea`. */
    method GetReelsPerIdea() returns (n: int)
      modifies this`cache, this`cacheTimestamp
      ensures var (data, after) := Lookup(Settings(), Cache(old(cache), old(cacheTimestamp)), clock.now, "PROMPTS");
        Cache(cache, cacheTimestamp) == after && n == ReelsPerIdea(data)
    {
      var data := GetFromFirestore("PROMPTS");
      n := DefaultReelsPerIdea;
      if data.Some? && data.value != map[] && "reels_per_idea" in data.value {
        var parsed := IntOf(data.value["reels_per_idea"]);
        if parsed.Some? {
          n := parsed.value;
        }
      }
    }

    /** `refresh_cache`: the cache is emptied and no longer valid. */
    method RefreshCache()
      modifies this`cache, this`cacheTimestamp
      ensures cache == map[] && cacheTimestamp == None
      ensures !IsCacheValid()
    {
      cache := map[];
      cacheTimestamp := None;
    }

    /** `get_cache_info`: the size counts exactly the listed documents. */
    function GetCacheInfo(): (info: CacheInfo)
      reads this, clock
      ensures info.cachedDocuments == cache.Keys && info.cacheSize == |info.cachedDocuments|
      ensures info.cacheTimestamp == cacheTimestamp
      ensures info.cacheValid <==> info.cacheTimestamp.Some? && clock.now - info.cacheTimestamp.value < CacheTtl
    {
      CacheInfo(|cache|, cacheTimestamp, IsCacheValid(), cache.Keys)
    }
  }
}
