/**
 * The relevance scorer: builds the text to evaluate from a record, asks
 * Gemini for a 0-100 score with call spacing and bounded retries, parses
 * the answer, and summarises batches of evaluations.
 */
module Relevance {
  import opened Wrappers
  import opened PyText
  import opened Items
  import opened Services

  const GeminiModel: string := "gemini-2.5-pro"
  const DefaultMinScore: int := 0
  const MaxRetries: nat := 3
  const RateLimitDelay: int := 30

  // ---------------------------------------------------------------------------
  // Reading a score out of the model's answer.
  // ---------------------------------------------------------------------------

  /** `\w` on ASCII text. */
  predicate IsWordChar(c: char) { IsAsciiLetter(c) || IsDigit(c) || c == '_' }

  /**
   * The value captured when `\b(\d{1,3})\b` matches at position `i`. The
   * leading `\b` needs a non-word character (or the start) before `i`;
   * greedy `\d{1,3}` followed by `\b` then succeeds exactly when the run of
   * digits starting at `i` has one to three digits and is followed by a
   * non-word character (or the end): a longer run leaves a digit after
   * every choice of 1-3 digits, and a letter or `_` after the run leaves
   * no boundary.
   */
  function NumberTokenAt(s: string, i: nat): Option<nat>
    requires i <= |s|
  {
    var n := DigitRun(s, i);
    if (i == 0 || !IsWordChar(s[i - 1])) && 1 <= n <= 3 && (i + n == |s| || !IsWordChar(s[i + n]))
    then Some(DecimalValue(s[i..i + n]))
    else None
  }

  /** The start of the leftmost match at or after `i` (`|s|` when there is none): `numbers[0]` of `re.findall`. */
  function FirstNumberToken(s: string, i: nat): (k: nat)
    requires i <= |s|
    ensures i <= k <= |s|
    ensures k < |s| ==> NumberTokenAt(s, k).Some?
    ensures forall j :: i <= j < k ==> NumberTokenAt(s, j).None?
    decreases |s| - i
  {
    if i == |s| then |s|
    else if NumberTokenAt(s, i).Some? then i
    else FirstNumberToken(s, i + 1)
  }

  /** Positions without a match are passed over: the search from `i` finds what the search from `k` finds. */
  lemma {:induction false} FirstNumberTokenSkips(s: string, i: nat, k: nat)
    requires i <= k <= |s|
    requires forall j :: i <= j < k ==> NumberTokenAt(s, j).None?
    ensures FirstNumberToken(s, i) == FirstNumberToken(s, k)
    decreases k - i
  {
    if i < k {
      FirstNumberTokenSkips(s, i + 1, k);
    }
  }

  /** The first match at or after `i`, kept only when it is at most 100. */
  function FirstNumberScore(s: string, i: nat): (r: Option<int>)
    requires i <= |s|
    ensures r.Some? ==> 0 <= r.value <= 100
    decreases |s| - i
  {
    if i == |s| then None
    else match NumberTokenAt(s, i)
      case Some(v) => if v <= 100 then Some(v) else None
      case None => FirstNumberScore(s, i + 1)
  }

  /** The score the fallback reads is the value of the leftmost match, and nothing when that exceeds 100. */
  lemma {:induction false} FirstNumberScoreIsLeftmost(s: string, i: nat)
    requires i <= |s|
    ensures var k := FirstNumberToken(s, i);
      FirstNumberScore(s, i) == (if k < |s| && NumberTokenAt(s, k).value <= 100 then Some(NumberTokenAt(s, k).value as int) else None)
    decreases |s| - i
  {
    if i < |s| && NumberTokenAt(s, i).None? {
      FirstNumberScoreIsLeftmost(s, i + 1);
    }
  }

  /**
   * The score in a non-empty answer: the stripped text as an integer when
   * `int` accepts it (kept only within 0..100, with no further search),
   * otherwise the first standalone number of one to three digits, kept
   * only within 0..100.
   */
  function ScoreFromText(t: string): (r: Option<int>)
    ensures r.Some? ==> 0 <= r.value <= 100
  {
    var s := Strip(t);
    match ParseInt(s)
    case Some(v) => if 0 <= v <= 100 then Some(v) else None
    case None =>
      FirstNumberScore(s, 0)
  }

  /** `_call_gemini_api` after the call: an exception or an empty answer gives no score. */
  function ScoreOfReply(reply: Reply): (r: Option<int>)
    ensures r.Some? ==> 0 <= r.value <= 100
    ensures r.Some? ==> reply.Text? && reply.text != ""
  {
    match reply
    case Raised(_) => None
    case TextRaised(_) => None
    case Text(t) => if t == "" then None else ScoreFromText(t)
  }

  /** An answer that `int` accepts is never searched further, even when it is out of range. */
  lemma IntegerAnswerHasNoFallback(t: string, v: int)
    requires ParseInt(Strip(t)) == Some(v)
    ensures ScoreFromText(t) == (if 0 <= v <= 100 then Some(v) else None)
  {
  }

  /**
   * Any other answer yields the first standalone 1-3 digit number when it
   * is at most 100, and nothing when there is no such number or the first
   * one is larger (later numbers are not considered).
   */
  lemma TextAnswerUsesFirstNumber(t: string)
    requires ParseInt(Strip(t)).None?
    ensures var s := Strip(t); var k := FirstNumberToken(s, 0);
      && (k == |s| ==> ScoreFromText(t).None?)
      && (k < |s| ==> ScoreFromText(t) == (if NumberTokenAt(s, k).value <= 100 then Some(NumberTokenAt(s, k).value as int) else None))
  {
    FirstNumberScoreIsLeftmost(Strip(t), 0);
  }

  /** A bare integer answer is the score. */
  lemma PlainIntegerAnswer()
    ensures ScoreFromText("85") == Some(85)
  {
    assert NatToString(85) == "85";
    ParseIntOfNatToString(85);
    StripOfPrintable("85");
  }

  /** An integer answer above 100 gives no score, although it contains digits. */
  lemma OutOfRangeIntegerAnswer()
    ensures ScoreFromText("150") == None
  {
    assert NatToString(150) == "150";
    ParseIntOfNatToString(150);
    StripOfPrintable("150");
  }

  /** A character that is neither a digit nor `_` makes the text something `int` rejects. */
  lemma NotDigitGroup(d: string, i: nat)
    requires i < |d| && !IsDigit(d[i]) && d[i] != '_'
    ensures !IsDigitGroup(d)
  {
    assert !GroupCharAt(d, i);
    GroupFromAll(d, 0);
  }

  /**
   * The fallback path in terms of the token search, for an answer that is
   * already stripped and that `int` rejects.
   */
  lemma ScoreByToken(t: string, k: nat, v: nat)
    requires Strip(t) == t && ParseInt(t).None?
    requires k < |t| && NumberTokenAt(t, k) == Some(v)
    requires forall j :: 0 <= j < k ==> NumberTokenAt(t, j).None?
    ensures ScoreFromText(t) == (if v <= 100 then Some(v) else None)
  {
    FirstNumberTokenSkips(t, 0, k);
    FirstNumberScoreIsLeftmost(t, 0);
  }

  /** Where "Score: 7" has its only match. */
  lemma SentenceTokens()
    ensures NumberTokenAt("Score: 7", 7) == Some(7)
    ensures forall j :: 0 <= j < 7 ==> NumberTokenAt("Score: 7", j).None?
  {
    var a := "Score: 7";
    assert DigitRun(a, 7) == 1;
    assert a[7..8] == "7";
    assert DecimalValue("7") == 7 by { assert "7"[..0] == ""; }
    assert forall j :: 0 <= j < 7 ==> !IsDigit(a[j]);
  }

  /** A sentence yields the number in it. */
  lemma SentenceAnswer()
    ensures ScoreFromText("Score: 7") == Some(7)
  {
    var a := "Score: 7";
    StripOfPrintable(a);
    NotDigitGroup(a, 0);
    SentenceTokens();
    ScoreByToken(a, 7, 7);
  }

  /** "1234" is no match, "7" is. */
  lemma LongNumberTokens()
    ensures NumberTokenAt("1234 or 7", 8) == Some(7)
    ensures forall j :: 0 <= j < 8 ==> NumberTokenAt("1234 or 7", j).None?
  {
    var b := "1234 or 7";
    assert DigitRun(b, 8) == 1;
    assert b[8..9] == "7";
    assert DecimalValue("7") == 7 by { assert "7"[..0] == ""; }
    assert DigitRun(b, 3) == 1;
    assert DigitRun(b, 2) == 2;
    assert DigitRun(b, 1) == 3;
    assert DigitRun(b, 0) == 4;
    assert forall j :: 4 <= j < 8 ==> !IsDigit(b[j]);
  }

  /** A number of four digits is not a match, so a later small number is used. */
  lemma LongNumberSkipped()
    ensures ScoreFromText("1234 or 7") == Some(7)
  {
    var b := "1234 or 7";
    StripOfPrintable(b);
    NotDigitGroup(b, 4);
    LongNumberTokens();
    ScoreByToken(b, 8, 7);
  }

  /** "101" is the first match of "x 101". */
  lemma LargeNumberTokens()
    ensures NumberTokenAt("x 101", 2) == Some(101)
    ensures forall j :: 0 <= j < 2 ==> NumberTokenAt("x 101", j).None?
  {
    var c := "x 101";
    assert c[2..5] == "101";
    assert DecimalValue("101") == 101 by { assert "101"[..2] == "10"; assert "10"[..1] == "1"; assert "1"[..0] == ""; }
    assert DigitRun(c, 4) == 1;
    assert DigitRun(c, 3) == 2;
    assert DigitRun(c, 2) == 3;
    assert DigitRun(c, 0) == 0 && DigitRun(c, 1) == 0;
  }

  /** The first small number decides: one above 100 gives no score. */
  lemma FirstNumberTooLarge()
    ensures ScoreFromText("x 101") == None
  {
    var c := "x 101";
    StripOfPrintable(c);
    NotDigitGroup(c, 0);
    LargeNumberTokens();
    ScoreByToken(c, 2, 101);
  }

  // ---------------------------------------------------------------------------
  // The text sent for evaluation.
  // ---------------------------------------------------------------------------

  /** The fields searched, in order of preference, for a record that is not a Reddit post. */
  const ContentFields: seq<string> := ["content", "description", "summary", "excerpt", "body"]

  /** `content_data.get(f) and content_data.get(f).strip()`. */
  predicate Usable(d: ContentDoc, f: string) {
    f in d.fields && Strip(d.fields[f]) != ""
  }

  /** The position of the first usable field of `fs` (`|fs|` when none is). */
  function FirstUsable(d: ContentDoc, fs: seq<string>): (k: nat)
    ensures k <= |fs|
    ensures k < |fs| ==> Usable(d, fs[k])
    ensures forall j :: 0 <= j < k ==> !Usable(d, fs[j])
  {
    if fs == [] then 0
    else if Usable(d, fs[0]) then 0
    else 1 + FirstUsable(d, fs[1..])
  }

  function TitleOf(d: ContentDoc): string { d.title.GetOr("No Title") }

  function SourceTypeOf(d: ContentDoc): string { d.sourceType.GetOr("unknown") }

  function WithContent(title: string, body: string): string {
    "Title: " + title + "\n\nContent: " + body
  }

  /**
   * `_prepare_content_for_evaluation`: a Reddit post always shows its
   * content (empty when absent); any other record shows the first usable
   * content field, or the title alone.
   */
  function EvaluationText(d: ContentDoc): string {
    if SourceTypeOf(d) == "reddit_post" then
      WithContent(TitleOf(d), if "content" in d.fields then d.fields["content"] else "")
    else
      var k := FirstUsable(d, ContentFields);
      if k < |ContentFields| then WithContent(TitleOf(d), d.fields[ContentFields[k]])
      else "Title: " + TitleOf(d)
  }

  /** The prompt `_call_gemini_api` sends. */
  function FullPrompt(systemPrompt: string, contentText: string): string {
    systemPrompt + "\n\nCONTENT TO EVALUATE:\n\n" + contentText
  }

  // ---------------------------------------------------------------------------
  // Call spacing and retries.
  // ---------------------------------------------------------------------------

  /**
   * When the next call goes out: immediately, unless the previous call was
   * less than `delay` seconds ago, in which case exactly `delay` seconds
   * after it.
   */
  function CallTime(last: Option<int>, now: int, delay: int): (t: int)
    ensures t >= now
    ensures last.Some? ==> t >= last.value + delay
    ensures t == now || (last.Some? && t == last.value + delay)
  {
    if last.Some? && now - last.value < delay then last.value + delay else now
  }

  /** The outcome of a run of attempts: the score found, if any, and the number of calls made. */
  datatype Attempts = Attempts(score: Option<int>, calls: nat)

  /** The scores the next `n` replies to `p` would give, starting with call number `start`. */
  function ReplyScores(g: Gemini, p: Prompt, start: nat, n: nat): (s: seq<Option<int>>)
    ensures |s| == n
  {
    if n == 0 then [] else ReplyScores(g, p, start, n - 1) + [ScoreOfReply(g(p, start + n - 1))]
  }

  /** Position `i` of `ReplyScores` is the score of reply number `start + i`. */
  lemma {:induction false} ReplyScoreAt(g: Gemini, p: Prompt, start: nat, n: nat, i: nat)
    requires i < n
    ensures ReplyScores(g, p, start, n)[i] == ScoreOfReply(g(p, start + i))
  {
    if i < n - 1 {
      ReplyScoreAt(g, p, start, n - 1, i);
    }
  }

  /**
   * Calls in order from position `i`, stopping at the first one whose reply
   * gives a score; `calls` is the number of calls made in all once it stops.
   */
  function FirstScoreFrom(scores: seq<Option<int>>, i: nat): (a: Attempts)
    requires i <= |scores|
    ensures i <= a.calls <= |scores|
    ensures a.score.Some? ==> i < a.calls && scores[a.calls - 1] == a.score
    ensures a.score.None? ==> a.calls == |scores|
    ensures forall j :: i <= j < a.calls - 1 ==> scores[j].None?
    ensures a.score.None? ==> forall j :: i <= j < |scores| ==> scores[j].None?
    decreases |scores| - i
  {
    if i == |scores| then Attempts(None, i)
    else if scores[i].Some? then Attempts(scores[i], i + 1)
    else FirstScoreFrom(scores, i + 1)
  }

  /** One step of the attempts: a call without a score moves on to the next. */
  lemma FirstScoreStep(scores: seq<Option<int>>, i: nat)
    requires i < |scores|
    ensures scores[i].None? ==> FirstScoreFrom(scores, i) == FirstScoreFrom(scores, i + 1)
    ensures scores[i].Some? ==> FirstScoreFrom(scores, i) == Attempts(scores[i], i + 1)
  {
  }

  /** The attempts of one scoring: the first reply that gives a score ends them. */
  function FirstScore(scores: seq<Option<int>>): (a: Attempts)
    ensures a.calls <= |scores|
    ensures a.score.Some? ==> 1 <= a.calls && scores[a.calls - 1] == a.score
    ensures a.score.None? ==> a.calls == |scores|
    ensures forall j :: 0 <= j < a.calls - 1 ==> scores[j].None?
    ensures a.score.None? ==> forall j :: 0 <= j < |scores| ==> scores[j].None?
  {
    FirstScoreFrom(scores, 0)
  }

  /** A score found by the attempts is one a reply gave, so it lies in 0..100. */
  lemma FirstScoreInRange(g: Gemini, p: Prompt, start: nat, n: nat)
    ensures var a := FirstScore(ReplyScores(g, p, start, n));
      a.score.Some? ==> 0 <= a.score.value <= 100
  {
    var a := FirstScore(ReplyScores(g, p, start, n));
    if a.score.Some? {
      ReplyScoreAt(g, p, start, n, a.calls - 1);
    }
  }

  /** A score in 0..100, or the fallback -1. */
  predicate ValidScore(score: int) { 0 <= score <= 100 || score == -1 }

  /** The threshold test: with the default threshold 0, -1 is the only score that is not relevant. */
  lemma DefaultThreshold(score: int)
    requires ValidScore(score)
    ensures (score >= DefaultMinScore) <==> score != -1
  {
  }

  // ---------------------------------------------------------------------------
  // Statistics over a batch of evaluations.
  // ---------------------------------------------------------------------------

  /** `score_distribution`. */
  datatype Distribution = Distribution(excellent: nat, good: nat, average: nat, poor: nat, veryPoor: nat)

  /** `get_scoring_statistics` without the float fields (rate and average). */
  datatype Statistics = Statistics(
    totalEvaluated: nat,
    relevantCount: nat,
    minScore: int,
    maxScore: int,
    distribution: Distribution)

  function ScoresOf(results: seq<Evaluation>): (s: seq<int>)
    ensures |s| == |results|
    ensures forall i :: 0 <= i < |results| ==> s[i] == results[i].relevanceScore
  {
    if results == [] then [] else ScoresOf(results[..|results| - 1]) + [results[|results| - 1].relevanceScore]
  }

  /** How many scores lie in `lo..hi`. */
  function CountIn(s: seq<int>, lo: int, hi: int): (n: nat)
    ensures n <= |s|
  {
    if s == [] then 0
    else CountIn(s[..|s| - 1], lo, hi) + (if lo <= s[|s| - 1] <= hi then 1 else 0)
  }

  function RelevantCount(results: seq<Evaluation>): (n: nat)
    ensures n <= |results|
    ensures n == 0 <==> forall i :: 0 <= i < |results| ==> !results[i].isRelevant
  {
    if results == [] then 0
    else RelevantCount(results[..|results| - 1]) + (if results[|results| - 1].isRelevant then 1 else 0)
  }

  function SeqMin(s: seq<int>): (m: int)
    requires s != []
    ensures m in s && forall x :: x in s ==> m <= x
  {
    if |s| == 1 then s[0]
    else
      var m := SeqMin(s[..|s| - 1]);
      assert forall x :: x in s ==> x in s[..|s| - 1] || x == s[|s| - 1];
      if s[|s| - 1] < m then s[|s| - 1] else m
  }

  function SeqMax(s: seq<int>): (m: int)
    requires s != []
    ensures m in s && forall x :: x in s ==> x <= m
  {
    if |s| == 1 then s[0]
    else
      var m := SeqMax(s[..|s| - 1]);
      assert forall x :: x in s ==> x in s[..|s| - 1] || x == s[|s| - 1];
      if s[|s| - 1] > m then s[|s| - 1] else m
  }

  function DistributionOf(s: seq<int>): Distribution {
    Distribution(CountIn(s, 90, 100), CountIn(s, 70, 89), CountIn(s, 50, 69), CountIn(s, 30, 49), CountIn(s, 0, 29))
  }

  /** `get_scoring_statistics`: nothing for an empty batch. */
  function ScoringStatistics(results: seq<Evaluation>): (r: Option<Statistics>)
    ensures r.None? <==> results == []
    ensures r.Some? ==> r.value.totalEvaluated == |results| && r.value.relevantCount <= |results|
    ensures r.Some? ==> forall i :: 0 <= i < |results| ==>
      r.value.minScore <= results[i].relevanceScore <= r.value.maxScore
    ensures r.Some? ==> r.value.minScore in ScoresOf(results) && r.value.maxScore in ScoresOf(results)
    ensures r.Some? ==> r.value.relevantCount == RelevantCount(results)
    ensures r.Some? ==> r.value.distribution == DistributionOf(ScoresOf(results))
  {
    if results == [] then None
    else
      var s := ScoresOf(results);
      assert forall i :: 0 <= i < |results| ==> s[i] in s;
      Some(Statistics(|results|, RelevantCount(results), SeqMin(s), SeqMax(s), DistributionOf(s)))
  }

  /** The five buckets are disjoint and together cover exactly 0..100. */
  lemma {:induction false} BucketsPartition(s: seq<int>)
    ensures var d := DistributionOf(s);
      d.excellent + d.good + d.average + d.poor + d.veryPoor == CountIn(s, 0, 100)
  {
    if s != [] {
      BucketsPartition(s[..|s| - 1]);
    }
  }

  /** The fallback score -1 falls in no bucket. */
  lemma FallbackInNoBucket(s: seq<int>)
    ensures DistributionOf(s + [-1]) == DistributionOf(s)
  {
    assert (s + [-1])[..|s|] == s;
  }

  /** When every score is valid, the buckets count exactly the evaluations that did not fall back. */
  lemma {:induction false} BucketsCountScored(s: seq<int>)
    requires forall i :: 0 <= i < |s| ==> ValidScore(s[i])
    ensures CountIn(s, 0, 100) + CountIn(s, -1, -1) == |s|
  {
    if s != [] {
      BucketsCountScored(s[..|s| - 1]);
    }
  }

  // ---------------------------------------------------------------------------
  // The scorer object.
  // ---------------------------------------------------------------------------

  /** `model or GEMINI_MODEL` and the like: a missing or empty argument falls back. */
  function OrDefault(arg: Option<string>, default: string): (r: string)
    ensures r == default || (arg.Some? && r == arg.value && r != "")
    ensures arg.Some? && arg.value != "" ==> r == arg.value
  {
    if arg.Some? && arg.value != "" then arg.value else default
  }

  /** A successful evaluation of `d`: a valid score, the threshold test against `minScore`, and the document's source type. */
  predicate RatedAs(e: Evaluation, d: ContentDoc, minScore: int) {
    && ValidScore(e.relevanceScore)
    && e.isRelevant == (e.relevanceScore >= minScore)
    && e.criteria.Some? && e.criteria.value.sourceType == SourceTypeOf(d)
  }

  class RelevanceScorer {
    const gemini: Gemini
    const clock: Clock
    const modelName: string
    const systemPrompt: string
    var minScore: int
    /** Requests made so far through this scorer's model client. */
    var calls: nat
    /** `_last_api_call`; absent until the first call. */
    var lastApiCall: Option<int>
    var apiWorking: bool

    constructor (gemini: Gemini, clock: Clock, model: Option<string>, systemPrompt: string)
      ensures this.gemini == gemini && this.clock == clock
      ensures modelName == OrDefault(model, GeminiModel) && this.systemPrompt == systemPrompt
      ensures minScore == DefaultMinScore && calls == 0 && lastApiCall == None && !apiWorking
    {
      this.gemini := gemini;
      this.clock := clock;
      modelName := OrDefault(model, GeminiModel);
      this.systemPrompt := systemPrompt;
      minScore := DefaultMinScore;
      calls := 0;
      lastApiCall := None;
      apiWorking := false;
    }

    /** `_prepare_content_for_evaluation`. */
    method PrepareContentForEvaluation(d: ContentDoc) returns (text: string)
      ensures text == EvaluationText(d)
      ensures StartsWith(text, "Title: " + TitleOf(d))
    {
      var title := TitleOf(d);
      if SourceTypeOf(d) == "reddit_post" {
        var content := if "content" in d.fields then d.fields["content"] else "";
        text := WithContent(title, content);
      } else {
        text := title;
        var i := 0;
        while i < |ContentFields|
          invariant 0 <= i <= |ContentFields|
          invariant forall j :: 0 <= j < i ==> !Usable(d, ContentFields[j])
          invariant text == title
        {
          if Usable(d, ContentFields[i]) {
            text := WithContent(title, d.fields[ContentFields[i]]);
            break;
          }
          i := i + 1;
        }
        assert FirstUsable(d, ContentFields) == i;
        if text == title {
          text := "Title: " + title;
        }
      }
      assert text[..|"Title: " + title|] == "Title: " + title;
    }

    /**
     * `_call_gemini_api`: waits until `RateLimitDelay` seconds have passed
     * since the previous call, records the call time, sends the prompt and
     * reads a score out of the reply.
     */
    method CallGeminiApi(contentText: string) returns (score: Option<int>)
      modifies this`calls, this`lastApiCall, this`apiWorking, clock
      ensures clock.now == CallTime(old(lastApiCall), old(clock.now), RateLimitDelay)
      ensures old(lastApiCall).Some? ==> clock.now >= old(lastApiCall).value + RateLimitDelay
      ensures lastApiCall == Some(clock.now)
      ensures calls == old(calls) + 1
      ensures score == old(ScoreOfReply(gemini(Scoring(FullPrompt(systemPrompt, contentText)), calls)))
      ensures apiWorking == old(apiWorking || gemini(Scoring(FullPrompt(systemPrompt, contentText)), calls).Returned())
    {
      if lastApiCall.Some? {
        var sinceLast := clock.now - lastApiCall.value;
        if sinceLast < RateLimitDelay {
          clock.Sleep(RateLimitDelay - sinceLast);
        }
      }
      lastApiCall := Some(clock.now);
      var reply := gemini(Scoring(FullPrompt(systemPrompt, contentText)), calls);
      calls := calls + 1;
      if reply.Returned() {
        apiWorking := true;
      }
      score := ScoreOfReply(reply);
    }

    /** The retry loop of `calculate_relevance_score`: up to `MaxRetries` calls, stopping at the first score. */
    method RetryScoring(text: string) returns (score: Option<int>)
      modifies this`calls, this`lastApiCall, this`apiWorking, clock
      ensures var a := FirstScore(ReplyScores(gemini, Scoring(FullPrompt(systemPrompt, text)), old(calls), MaxRetries));
        calls == old(calls) + a.calls && score == a.score
      ensures clock.now >= old(clock.now)
    {
      ghost var scores := ReplyScores(gemini, Scoring(FullPrompt(systemPrompt, text)), calls, MaxRetries);
      score := None;
      var attempt := 0;
      while attempt < MaxRetries && score.None?
        invariant 0 <= attempt <= MaxRetries
        invariant calls == old(calls) + attempt
        invariant clock.now >= old(clock.now)
        invariant score.None? ==> FirstScore(scores) == FirstScoreFrom(scores, attempt)
        invariant score.Some? ==> FirstScore(scores) == Attempts(score, attempt)
      {
        ghost var next := scores[attempt];
        ReplyScoreAt(gemini, Scoring(FullPrompt(systemPrompt, text)), old(calls), MaxRetries, attempt);
        assert next == ScoreOfReply(gemini(Scoring(FullPrompt(systemPrompt, text)), calls));
        FirstScoreStep(scores, attempt);
        score := CallGeminiApi(text);
        assert score == next;
        attempt := attempt + 1;
      }
    }

    /**
     * `calculate_relevance_score`: at most `MaxRetries` calls, stopping at
     * the first score; -1 when none was found; relevant exactly when the
     * score reaches `minScore`.
     */
    method CalculateRelevanceScore(d: ContentDoc) returns (e: Evaluation)
      modifies this`calls, this`lastApiCall, this`apiWorking, clock
      ensures var a := FirstScore(ReplyScores(gemini, Scoring(FullPrompt(systemPrompt, EvaluationText(d))), old(calls), MaxRetries));
        && calls == old(calls) + a.calls
        && e.relevanceScore == (if a.score.Some? then a.score.value else -1)
      ensures calls - old(calls) <= MaxRetries
      ensures ValidScore(e.relevanceScore)
      ensures e.isRelevant == (e.relevanceScore >= minScore)
      ensures e.evaluatedAt == clock.now && clock.now >= old(clock.now)
      ensures e.evaluationModel == modelName
      ensures e.criteria == Some(Criteria(minScore, |EvaluationText(d)|, SourceTypeOf(d)))
    {
      var text := PrepareContentForEvaluation(d);
      FirstScoreInRange(gemini, Scoring(FullPrompt(systemPrompt, text)), calls, MaxRetries);
      var score := RetryScoring(text);
      var s := if score.Some? then score.value else -1;
      e := Evaluation(s, s >= minScore, clock.now, modelName, Some(Criteria(minScore, |text|, SourceTypeOf(d))));
    }

    /** `batch_calculate_scores`: one evaluation per record, in order. */
    method BatchCalculateScores(docs: seq<ContentDoc>) returns (results: seq<Evaluation>)
      modifies this`calls, this`lastApiCall, this`apiWorking, clock
      ensures |results| == |docs|
      ensures forall i :: 0 <= i < |docs| ==> RatedAs(results[i], docs[i], minScore)
      ensures forall i, j :: 0 <= i < j < |docs| ==> results[i].evaluatedAt <= results[j].evaluatedAt
      ensures forall i :: 0 <= i < |docs| ==> old(clock.now) <= results[i].evaluatedAt <= clock.now
    {
      results := [];
      var i := 0;
      while i < |docs|
        invariant 0 <= i <= |docs| && |results| == i
        invariant forall k :: 0 <= k < i ==> RatedAs(results[k], docs[k], minScore)
        invariant forall k, j :: 0 <= k < j < i ==> results[k].evaluatedAt <= results[j].evaluatedAt
        invariant old(clock.now) <= clock.now
        invariant forall k :: 0 <= k < i ==> old(clock.now) <= results[k].evaluatedAt <= clock.now
      {
        var r := CalculateRelevanceScore(docs[i]);
        results := results + [r];
        i := i + 1;
      }
    }
  }
}
