/**
 * Stand-ins for the collaborators the engine talks to: wall-clock time,
 * the Firestore collections, and the Gemini model.
 */
module Services {
  import opened Wrappers
  import opened Fingerprint
  import opened Items

  /** Wall-clock time in whole seconds; only `Sleep` advances it (calls take no time). */
  class Clock {
    var now: int

    constructor (start: int)
      ensures now == start
    {
      now := start;
    }

    /** `time.sleep(d)`; Python refuses a negative duration. */
    method Sleep(d: int)
      requires d >= 0
      modifies this
      ensures now == old(now) + d
    {
      now := now + d;
    }
  }

  /** The Firestore collections the engine uses, keyed by document id. */
  class Firestore {
    var rawIdeas: map<Digest, Item>
    var rssMetadata: map<Digest, SourceMetadata>
    var subredditMetadata: map<Digest, SourceMetadata>
    var reelIdeas: seq<Reel>
    var settings: map<string, Doc>

    constructor (rawIdeas: map<Digest, Item>, settings: map<string, Doc>)
      ensures this.rawIdeas == rawIdeas && this.settings == settings
      ensures rssMetadata == map[] && subredditMetadata == map[] && reelIdeas == []
    {
      this.rawIdeas := rawIdeas;
      this.settings := settings;
      rssMetadata := map[];
      subredditMetadata := map[];
      reelIdeas := [];
    }
  }

  /**
   * What a request to the model produces: `response.text`; the text of the
   * exception `generate_content` raised; or the text of the exception that
   * reading `response.text` raised after the request itself returned (a
   * blocked or empty candidate, say).
   */
  datatype Reply = Text(text: string) | Raised(message: string) | TextRaised(message: string) {
    /** `generate_content` returned, whether or not its text could be read. */
    predicate Returned() { !Raised? }
  }

  /**
   * What is sent to the model: the scorer's full prompt string, or a
   * request for reel concepts about one raw idea (the template text is not
   * modelled).
   */
  datatype Prompt = Scoring(text: string) | ReelIdeas(idea: Digest, reelsPerIdea: int)

  /**
   * The model's behaviour: the reply to a prompt on the n-th request made
   * through one client (so the same prompt may be answered differently on
   * a retry).
   */
  type Gemini = (Prompt, nat) -> Reply
}
