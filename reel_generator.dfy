/**
 * The reel generator: selects the raw ideas a human approved that have no
 * reels yet, asks Gemini for reel concepts about each one (waiting and
 * retrying on rate limits and empty replies), saves the concepts to
 * REEL_IDEAS in one batch and marks the idea as done.
 */
module ReelGeneration {
  import opened Wrappers
  import opened PyText
  import opened Fingerprint
  import opened Items
  import opened Services

  const DefaultReelsPerIdea: int := 2
  const MaxRetries: nat := 3
  /** The wait in seconds when an error message names no delay. */
  const DefaultRetryDelay: int := 60
  /** Seconds added to the delay an error message names. */
  const RetryBuffer: nat := 5
  /** Seconds waited after an empty reply. */
  const EmptyReplyDelay: int := 10

  // ---------------------------------------------------------------------------
  // The retry delay named in an error message.
  // ---------------------------------------------------------------------------

  /**
   * The three patterns `_extract_retry_delay` tries, in this order, each
   * case-insensitively:
   * "please retry in", digits with an optional fraction, then "s";
   * "retry_delay", whitespace, "{", whitespace, "seconds:", whitespace, digits;
   * "seconds:", whitespace, digits.
   */
  datatype RetryPattern = PleaseRetryIn | RetryDelayBlock | SecondsField

  const RetryPatterns: seq<RetryPattern> := [PleaseRetryIn, RetryDelayBlock, SecondsField]

  /** The captured delay: its integer digits and its fraction digits (empty when there is no fraction). */
  datatype Delay = Delay(whole: string, fraction: string)

  /** The lower-case literal `lit` occurs at `p`, ignoring the case of ASCII letters. */
  predicate LiteralAt(s: string, p: nat, lit: string) {
    p + |lit| <= |s| && Lower(s[p..p + |lit|]) == lit
  }

  /** Optional whitespace and then at least one digit, from `q`: the group `\s*(\d+)`. */
  function SecondsValue(s: string, q: nat): (m: Option<Delay>)
    requires q <= |s|
    ensures m.Some? ==> m.value.whole != [] && AllDigits(m.value.whole) && m.value.fraction == []
  {
    var d := q + SpaceRun(s, q);
    var e := d + DigitRun(s, d);
    if e == d then None else Some(Delay(s[d..e], []))
  }

  /** "please retry in", digits, an optional fraction, then "s", at `p`. */
  function PleaseRetryInAt(s: string, p: nat): (m: Option<Delay>)
    requires p <= |s|
    ensures m.Some? ==> LiteralAt(s, p, "please retry in ")
    ensures m.Some? ==> m.value.whole != [] && AllDigits(m.value.whole) && AllDigits(m.value.fraction)
  {
    if !LiteralAt(s, p, "please retry in ") then None
    else
      var q := p + 16;
      var e := q + DigitRun(s, q);
      if e == q || e == |s| then None
      else if LowerChar(s[e]) == 's' then Some(Delay(s[q..e], []))
      else if s[e] != '.' then None
      else
        var f := e + 1 + DigitRun(s, e + 1);
        if f == e + 1 || f == |s| || LowerChar(s[f]) != 's' then None
        else Some(Delay(s[q..e], s[e + 1..f]))
  }

  /** "seconds:", whitespace, digits, at `p`. */
  function SecondsFieldAt(s: string, p: nat): (m: Option<Delay>)
    requires p <= |s|
    ensures m.Some? ==> LiteralAt(s, p, "seconds:")
    ensures m.Some? ==> m.value.whole != [] && AllDigits(m.value.whole) && m.value.fraction == []
  {
    if !LiteralAt(s, p, "seconds:") then None else SecondsValue(s, p + 8)
  }

  /** "retry_delay", whitespace, "{", whitespace, then a "seconds:" field, at `p`. */
  function RetryDelayBlockAt(s: string, p: nat): (m: Option<Delay>)
    requires p <= |s|
    ensures m.Some? ==> exists k :: p <= k <= |s| && LiteralAt(s, k, "seconds:")
    ensures m.Some? ==> m.value.whole != [] && AllDigits(m.value.whole) && m.value.fraction == []
  {
    if !LiteralAt(s, p, "retry_delay") then None
    else
      var b := p + 11 + SpaceRun(s, p + 11);
      if b == |s| || s[b] != '{' then None
      else SecondsFieldAt(s, b + 1 + SpaceRun(s, b + 1))
  }

  /** The match of `pat` that starts exactly at `p`, if there is one. */
  function MatchAt(pat: RetryPattern, s: string, p: nat): (m: Option<Delay>)
    requires p <= |s|
    ensures m.Some? ==> m.value.whole != [] && AllDigits(m.value.whole) && AllDigits(m.value.fraction)
  {
    match pat
    case PleaseRetryIn => PleaseRetryInAt(s, p)
    case RetryDelayBlock => RetryDelayBlockAt(s, p)
    case SecondsField => SecondsFieldAt(s, p)
  }

  /** `re.search`: the match at the leftmost position from `p` on where there is one. */
  function Search(pat: RetryPattern, s: string, p: nat): (m: Option<Delay>)
    requires p <= |s|
    ensures m.Some? ==> m.value.whole != [] && AllDigits(m.value.whole) && AllDigits(m.value.fraction)
    decreases |s| - p
  {
    var here := MatchAt(pat, s, p);
    if here.Some? || p == |s| then here else Search(pat, s, p + 1)
  }

  /** The match of the first pattern from `RetryPatterns[i]` on that matches somewhere in `msg`. */
  function FirstMatch(msg: string, i: nat): (m: Option<Delay>)
    requires i <= |RetryPatterns|
    ensures m.Some? ==> m.value.whole != [] && AllDigits(m.value.whole) && AllDigits(m.value.fraction)
    decreases |RetryPatterns| - i
  {
    if i == |RetryPatterns| then None
    else
      var m := Search(RetryPatterns[i], msg, 0);
      if m.Some? then m else FirstMatch(msg, i + 1)
  }

  /** The seconds `_extract_retry_delay` gives: `int(d) + 5` for the first captured `d`, else 60. */
  function RetryDelay(msg: string): (d: int)
    ensures d >= RetryBuffer
  {
    match FirstMatch(msg, 0)
    case Some(m) => DecimalValue(m.whole) + RetryBuffer
    case None => DefaultRetryDelay
  }

  /** `_extract_retry_delay`: tries the patterns in order and stops at the first that matches. */
  method ExtractRetryDelay(msg: string) returns (delay: int)
    ensures delay == RetryDelay(msg)
  {
    var i := 0;
    while i < |RetryPatterns|
      invariant 0 <= i <= |RetryPatterns|
      invariant FirstMatch(msg, 0) == FirstMatch(msg, i)
    {
      var m := Search(RetryPatterns[i], msg, 0);
      if m.Some? {
        return DecimalValue(m.value.whole) + RetryBuffer;
      }
      i := i + 1;
    }
    delay := DefaultRetryDelay;
  }

  function Pow10(n: nat): (p: nat)
    ensures p >= 1
  {
    if n == 0 then 1 else 10 * Pow10(n - 1)
  }

  /** Appending digits shifts the value left by their count. */
  lemma {:induction false} DecimalAppend(a: string, b: string)
    requires AllDigits(b)
    ensures DecimalValue(a + b) == DecimalValue(a) * Pow10(|b|) + DecimalValue(b)
    decreases |b|
  {
    if b == [] {
      assert a + b == a;
    } else {
      var b', c := b[..|b| - 1], b[|b| - 1];
      assert AllDigits(b') by {
        forall i | 0 <= i < |b'| ensures IsDigit(b'[i]) {
          assert b'[i] == b[i];
        }
      }
      DecimalAppend(a, b');
      var x := a + b;
      assert x[..|x| - 1] == a + b' && x[|x| - 1] == c;
      assert c != '_' && b[..|b| - 1] == b';
      var v, p := DecimalValue(a), Pow10(|b'|);
      calc {
        DecimalValue(x);
        10 * DecimalValue(a + b') + DigitValue(c);
        10 * (v * p + DecimalValue(b')) + DigitValue(c);
        { ShiftByTen(v, p); }
        v * (10 * p) + (10 * DecimalValue(b') + DigitValue(c));
        v * Pow10(|b|) + DecimalValue(b);
      }
    }
  }

  lemma ShiftByTen(v: int, p: int)
    ensures 10 * (v * p) == v * (10 * p)
  {
  }

  /** A run of `n` digits is below `10^n`. */
  lemma {:induction false} DecimalBelow(b: string)
    requires AllDigits(b)
    ensures DecimalValue(b) < Pow10(|b|)
    decreases |b|
  {
    if b != [] {
      DecimalBelow(b[..|b| - 1]);
    }
  }

  /**
   * The wait is more than four seconds longer than the delay the message
   * asks for: with `f` fraction digits, `delay * 10^f > d * 10^f + 4 * 10^f`
   * where `d * 10^f` is the captured number read without its point.
   */
  lemma RetryDelayExceedsRequest(msg: string, m: Delay)
    requires FirstMatch(msg, 0) == Some(m)
    ensures RetryDelay(msg) * Pow10(|m.fraction|) > DecimalValue(m.whole + m.fraction) + 4 * Pow10(|m.fraction|)
  {
    DecimalAppend(m.whole, m.fraction);
    DecimalBelow(m.fraction);
    ScaledBound(DecimalValue(m.whole), DecimalValue(m.fraction), Pow10(|m.fraction|));
  }

  lemma ScaledBound(w: int, f: int, p: int)
    requires 0 <= f < p
    ensures (w + RetryBuffer) * p > w * p + f + 4 * p
  {
  }

  /** A literal matched at `p` occurs in the lower-cased text. */
  lemma LiteralContained(s: string, p: nat, lit: string)
    requires LiteralAt(s, p, lit)
    ensures Contains(Lower(s), lit)
  {
    assert Lower(s)[p..p + |lit|] == Lower(s[p..p + |lit|]);
    ContainsAt(Lower(s), lit, p);
  }

  /** `sub` occurring at index `p` of `s` makes `sub in s` true. */
  lemma {:induction false} ContainsAt(s: string, sub: string, p: nat)
    requires p + |sub| <= |s| && s[p..p + |sub|] == sub
    ensures Contains(s, sub)
    decreases p
  {
    if p > 0 {
      assert s[1..][p - 1..p - 1 + |sub|] == s[p..p + |sub|];
      ContainsAt(s[1..], sub, p - 1);
    }
  }

  /** The lower-case literal `lit` occurs, ignoring case, at no position of `s`. */
  predicate NowhereAt(s: string, lit: string) {
    forall k :: 0 <= k <= |s| ==> !LiteralAt(s, k, lit)
  }

  /** A literal absent from the lower-cased text is matched at no position. */
  lemma NotContainedNowhere(s: string, lit: string)
    requires !Contains(Lower(s), lit)
    ensures NowhereAt(s, lit)
  {
    forall k | 0 <= k <= |s|
      ensures !LiteralAt(s, k, lit)
    {
      if LiteralAt(s, k, lit) {
        LiteralContained(s, k, lit);
      }
    }
  }

  /** Without "please retry in" the first pattern matches at no position. */
  lemma NoPleaseRetryInAt(s: string, p: nat)
    requires p <= |s| && NowhereAt(s, "please retry in ")
    ensures PleaseRetryInAt(s, p) == None
  {
    assert !LiteralAt(s, p, "please retry in ");
  }

  /** Without "seconds:" the third pattern matches at no position. */
  lemma NoSecondsFieldAt(s: string, p: nat)
    requires p <= |s| && NowhereAt(s, "seconds:")
    ensures SecondsFieldAt(s, p) == None
  {
    assert !LiteralAt(s, p, "seconds:");
  }

  /** The second pattern ends in a "seconds:" field, so without one it matches at no position. */
  lemma NoRetryDelayBlockAt(s: string, p: nat)
    requires p <= |s| && NowhereAt(s, "seconds:")
    ensures RetryDelayBlockAt(s, p) == None
  {
    if LiteralAt(s, p, "retry_delay") {
      var b := p + 11 + SpaceRun(s, p + 11);
      if b < |s| && s[b] == '{' {
        NoSecondsFieldAt(s, b + 1 + SpaceRun(s, b + 1));
      }
    }
  }

  /** Without "seconds:" and "please retry in" no pattern matches at `p`. */
  lemma NoMatchAt(pat: RetryPattern, s: string, p: nat)
    requires p <= |s|
    requires NowhereAt(s, "seconds:") && NowhereAt(s, "please retry in ")
    ensures MatchAt(pat, s, p) == None
  {
    match pat
    case PleaseRetryIn => NoPleaseRetryInAt(s, p);
    case RetryDelayBlock => NoRetryDelayBlockAt(s, p);
    case SecondsField => NoSecondsFieldAt(s, p);
  }

  /** ... and so none matches from `p` on. */
  lemma {:induction false} SearchFindsNothing(pat: RetryPattern, s: string, p: nat)
    requires p <= |s|
    requires NowhereAt(s, "seconds:") && NowhereAt(s, "please retry in ")
    ensures Search(pat, s, p) == None
    decreases |s| - p
  {
    NoMatchAt(pat, s, p);
    if p < |s| {
      SearchFindsNothing(pat, s, p + 1);
    }
  }

  /** A message that mentions no delay gives the default wait of 60 seconds. */
  lemma NoDelayMentionedGivesDefault(msg: string)
    requires !Contains(Lower(msg), "seconds:") && !Contains(Lower(msg), "please retry in ")
    ensures RetryDelay(msg) == DefaultRetryDelay
  {
    NotContainedNowhere(msg, "seconds:");
    NotContainedNowhere(msg, "please retry in ");
    SearchFindsNothing(PleaseRetryIn, msg, 0);
    SearchFindsNothing(RetryDelayBlock, msg, 0);
    SearchFindsNothing(SecondsField, msg, 0);
    assert FirstMatch(msg, 2) == None;
    assert FirstMatch(msg, 1) == None;
  }

  /** The phrase as the model's errors capitalise it folds to the pattern's literal. */
  lemma PhraseFolds(t: string)
    requires t == "Please retry in "
    ensures Lower(t) == "please retry in "
  {
    LowerIs(t, "please retry in ");
  }

  /** A digit string followed by a non-digit (or by nothing) is one whole digit run. */
  lemma DigitRunOfPart(pre: string, d: string, post: string)
    requires AllDigits(d) && (post == [] || !IsDigit(post[0]))
    ensures DigitRun(pre + d + post, |pre|) == |d|
  {
    var s := pre + d + post;
    assert forall k :: |pre| <= k < |pre| + |d| ==> s[k] == d[k - |pre|];
    DigitRunIs(s, |pre|, |d|);
  }

  /** Where the parts of "<phrase><d>.<f>s" sit, and that the digit runs end where `d` and `f` do. */
  lemma RetryInLayout(phrase: string, d: string, f: string)
    requires |phrase| == 16 && AllDigits(d) && AllDigits(f)
    ensures var s := phrase + d + "." + f + "s"; var e := 16 + |d|;
      |s| == e + |f| + 2 && s[0..16] == phrase && s[16..e] == d && s[e] == '.'
      && s[e + 1..e + 1 + |f|] == f && s[e + 1 + |f|] == 's'
      && DigitRun(s, 16) == |d| && DigitRun(s, e + 1) == |f|
  {
    var s := phrase + d + "." + f + "s";
    var e := 16 + |d|;
    assert s == phrase + d + ("." + f + "s");
    DigitRunOfPart(phrase, d, "." + f + "s");
    assert s == (phrase + d + ".") + f + "s";
    DigitRunOfPart(phrase + d + ".", f, "s");
    assert s[16..e] == d;
    assert s[e + 1..e + 1 + |f|] == f;
  }

  /**
   * "<phrase><d>.<f>s", where the phrase is "please retry in" in any casing,
   * as the model's quota errors put it, waits the whole seconds of the delay plus five.
   */
  lemma PleaseRetryInGivesWholeSeconds(phrase: string, d: string, f: string)
    requires Lower(phrase) == "please retry in "
    requires d != [] && AllDigits(d) && f != [] && AllDigits(f)
    ensures RetryDelay(phrase + d + "." + f + "s") == DecimalValue(d) + RetryBuffer
  {
    var s := phrase + d + "." + f + "s";
    RetryInLayout(phrase, d, f);
    assert PleaseRetryInAt(s, 0) == Some(Delay(d, f));
    assert Search(PleaseRetryIn, s, 0) == Some(Delay(d, f));
    assert FirstMatch(s, 0) == Some(Delay(d, f));
  }

  /** The example in the source: "Please retry in 49.867907441s" waits 49 + 5 seconds. */
  lemma PleaseRetryInExample(phrase: string, d: string, f: string)
    requires phrase == "Please retry in " && d == "49" && f == "867907441"
    ensures RetryDelay(phrase + d + "." + f + "s") == 54
  {
    PhraseFolds(phrase);
    PleaseRetryInGivesWholeSeconds(phrase, d, f);
    assert DecimalValue(d) == 49 by {
      assert d[..1] == "4";
      assert "4"[..0] == "";
    }
  }

  // ---------------------------------------------------------------------------
  // Requests with retry.
  // ---------------------------------------------------------------------------

  /** `"quota"`, `"retry"` or `"rate"` in the lower-cased message marks an error as a rate limit. */
  predicate IsRateLimit(msg: string) {
    Contains(Lower(msg), "quota") || Contains(Lower(msg), "retry") || Contains(Lower(msg), "rate")
  }

  /** How `_make_gemini_request_with_retry` treats one reply. */
  datatype Verdict =
    | Answer(text: string)       // a non-empty text: returned
    | RetryAfter(seconds: int)   // an empty text, or a rate-limit error: wait, then try again unless it was the last attempt
    | GiveUp                     // any other error: return None at once

  function Classify(r: Reply): (v: Verdict)
    ensures v.Answer? ==> v.text != ""
    ensures v.RetryAfter? ==> v.seconds >= RetryBuffer
  {
    match r
    case Text(t) => if t != "" then Answer(t) else RetryAfter(EmptyReplyDelay)
    case _ => if IsRateLimit(r.message) then RetryAfter(RetryDelay(r.message)) else GiveUp
  }

  /** What a run of attempts comes to: the text returned, the requests made and the waits between them. */
  datatype Attempts = Attempts(text: Option<string>, requests: nat, waits: seq<int>)

  function Sum(ws: seq<int>): int {
    if ws == [] then 0 else Sum(ws[..|ws| - 1]) + ws[|ws| - 1]
  }

  /** The verdicts on the replies to `MaxRetries` successive requests for `prompt`, the first being the client's `calls`-th. */
  function Verdicts(gemini: Gemini, prompt: Prompt, calls: nat): (vs: seq<Verdict>)
    ensures |vs| == MaxRetries
    ensures forall j :: 0 <= j < MaxRetries ==> vs[j] == Classify(gemini(prompt, calls + j))
  {
    seq(MaxRetries, j requires 0 <= j => Classify(gemini(prompt, calls + j)))
  }

  /** The verdict on the reply to the `j`-th of those requests. */
  lemma VerdictOf(gemini: Gemini, prompt: Prompt, calls: nat, j: nat, reply: Reply)
    requires j < MaxRetries && reply == gemini(prompt, calls + j)
    ensures Verdicts(gemini, prompt, calls)[j] == Classify(reply)
  {
  }

  /**
   * `_make_gemini_request_with_retry` from attempt `attempt` on, given the
   * verdicts on the successive replies.
   */
  function RequestOutcome(vs: seq<Verdict>, attempt: nat): (o: Attempts)
    requires attempt <= |vs| == MaxRetries
    ensures o.requests + attempt <= MaxRetries
    ensures attempt < MaxRetries ==> o.requests >= 1
    ensures |o.waits| == (if o.requests == 0 then 0 else o.requests - 1)
    decreases MaxRetries - attempt
  {
    if attempt == MaxRetries then Attempts(None, 0, [])
    else
      match vs[attempt]
      case Answer(t) => Attempts(Some(t), 1, [])
      case GiveUp => Attempts(None, 1, [])
      case RetryAfter(w) =>
        if attempt == MaxRetries - 1 then Attempts(None, 1, [])
        else
          var rest := RequestOutcome(vs, attempt + 1);
          Attempts(rest.text, rest.requests + 1, [w] + rest.waits)
  }

  /**
   * Each wait is the one the reply before it asked for, every reply but
   * the last one asked for a retry, and a returned text is the last reply.
   */
  lemma {:induction false} RetriesFollowRetryVerdicts(vs: seq<Verdict>, attempt: nat)
    requires attempt <= |vs| == MaxRetries
    ensures var o := RequestOutcome(vs, attempt);
      && (forall j :: 0 <= j < |o.waits| ==> vs[attempt + j] == RetryAfter(o.waits[j]))
      && (o.text.Some? ==> o.requests >= 1 && vs[attempt + o.requests - 1] == Answer(o.text.value))
      && (o.text.None? && o.requests >= 1 ==> !vs[attempt + o.requests - 1].Answer?)
    decreases MaxRetries - attempt
  {
    var o := RequestOutcome(vs, attempt);
    if attempt < MaxRetries - 1 && vs[attempt].RetryAfter? {
      var rest := RequestOutcome(vs, attempt + 1);
      RetriesFollowRetryVerdicts(vs, attempt + 1);
      assert o.waits == [vs[attempt].seconds] + rest.waits;
      forall j | 0 <= j < |o.waits|
        ensures vs[attempt + j] == RetryAfter(o.waits[j])
      {
        if j > 0 {
          assert o.waits[j] == rest.waits[j - 1];
        }
      }
    }
  }

  /** The first answer among the replies is the text returned, provided every reply before it asked for a retry. */
  lemma {:induction false} FirstAnswerReturned(vs: seq<Verdict>, attempt: nat, k: nat)
    requires attempt <= k < |vs| == MaxRetries
    requires forall j :: attempt <= j < k ==> vs[j].RetryAfter?
    requires vs[k].Answer?
    ensures RequestOutcome(vs, attempt) == Attempts(Some(vs[k].text), k - attempt + 1, RequestOutcome(vs, attempt).waits)
    decreases k - attempt
  {
    if attempt < k {
      FirstAnswerReturned(vs, attempt + 1, k);
    }
  }

  /** An error that is not a rate limit ends the attempts at once, without a wait. */
  lemma NonRetryableErrorStops(gemini: Gemini, prompt: Prompt, calls: nat)
    requires !gemini(prompt, calls).Text? && !IsRateLimit(gemini(prompt, calls).message)
    ensures RequestOutcome(Verdicts(gemini, prompt, calls), 0) == Attempts(None, 1, [])
  {
    assert Verdicts(gemini, prompt, calls)[0] == GiveUp;
  }

  /** Every wait is at least five seconds. */
  lemma {:induction false} WaitsAtLeastBuffer(vs: seq<Verdict>, attempt: nat)
    requires attempt <= |vs| == MaxRetries
    requires forall j :: 0 <= j < |vs| && vs[j].RetryAfter? ==> vs[j].seconds >= RetryBuffer
    ensures Sum(RequestOutcome(vs, attempt).waits) >= RetryBuffer * |RequestOutcome(vs, attempt).waits|
    decreases MaxRetries - attempt
  {
    if attempt < MaxRetries - 1 && vs[attempt].RetryAfter? {
      var rest := RequestOutcome(vs, attempt + 1);
      WaitsAtLeastBuffer(vs, attempt + 1);
      SumCons(vs[attempt].seconds, rest.waits);
    }
  }

  lemma Reassociate(a: seq<int>, w: int, b: seq<int>)
    ensures a + ([w] + b) == (a + [w]) + b
  {
  }

  lemma {:induction false} SumCons(w: int, ws: seq<int>)
    ensures Sum([w] + ws) == w + Sum(ws)
    decreases |ws|
  {
    if ws != [] {
      assert ([w] + ws)[..|[w] + ws| - 1] == [w] + ws[..|ws| - 1];
      SumCons(w, ws[..|ws| - 1]);
    }
  }

  /** The attempts still to come, resumed after the retryable replies that led to `waits`. */
  function Resumed(waits: seq<int>, o: Attempts): Attempts {
    Attempts(o.text, |waits| + o.requests, waits + o.waits)
  }

  /** The loop of `_make_gemini_request_with_retry` from `attempt` on, after the waits so far. */
  function Continue(vs: seq<Verdict>, attempt: nat, waits: seq<int>): Attempts
    requires attempt <= |vs| == MaxRetries
    decreases MaxRetries - attempt
  {
    if attempt == MaxRetries then Attempts(None, attempt, waits)
    else
      match vs[attempt]
      case Answer(t) => Attempts(Some(t), attempt + 1, waits)
      case GiveUp => Attempts(None, attempt + 1, waits)
      case RetryAfter(w) =>
        if attempt == MaxRetries - 1 then Attempts(None, attempt + 1, waits)
        else Continue(vs, attempt + 1, waits + [w])
  }

  /** Running the loop on from `attempt` is resuming the attempts `RequestOutcome` describes from there. */
  lemma {:induction false} ContinueResumes(vs: seq<Verdict>, attempt: nat, waits: seq<int>)
    requires attempt <= |vs| == MaxRetries && |waits| == attempt
    ensures Continue(vs, attempt, waits) == Resumed(waits, RequestOutcome(vs, attempt))
    decreases MaxRetries - attempt
  {
    assert waits + [] == waits;
    if attempt < MaxRetries && vs[attempt].RetryAfter? && attempt < MaxRetries - 1 {
      var w := vs[attempt].seconds;
      ContinueResumes(vs, attempt + 1, waits + [w]);
      Reassociate(waits, w, RequestOutcome(vs, attempt + 1).waits);
    }
  }

  // ---------------------------------------------------------------------------
  // Reply cleaning, selection and marking.
  // ---------------------------------------------------------------------------

  /** The cleaning in `generate_reels_for_idea`: `strip()`, then a leading "```json" and a trailing "```" go. */
  function StripFences(t: string): (r: string)
    ensures |r| <= |t|
  {
    var a := Strip(t);
    var b := if StartsWith(a, "```json") then a[7..] else a;
    if EndsWith(b, "```") then b[..|b| - 3] else b
  }

  /** A reply that wraps `body` in a json code fence, with any surrounding whitespace, gives `body` back. */
  lemma FencedReplyUnwrapped(p: string, body: string, q: string)
    requires AllSpace(p) && AllSpace(q)
    ensures StripFences(p + ("```json" + body + "```") + q) == body
  {
    var r := "```json" + body + "```";
    assert r[0] == '`' && r[|r| - 1] == '`';
    PrintableNotSpace('`');
    StripOfPadded(p, r, q);
    assert r[..7] == "```json";
    assert r[7..] == body + "```";
    var b := r[7..];
    assert b[|b| - 3..] == "```";
    assert b[..|b| - 3] == body;
  }

  /** A reply with no fence at either end is only stripped. */
  lemma UnfencedReplyOnlyStripped(t: string)
    requires !StartsWith(Strip(t), "```json") && !EndsWith(Strip(t), "```")
    ensures StripFences(t) == Strip(t)
  {
  }

  /** The decoded batch `generate_reels_for_idea` returns for what the retry loop gave. */
  function ReelsFromReply(decode: string -> Option<seq<Reel>>, text: Option<string>): seq<Reel> {
    match text
    case None => []
    case Some(t) => if t == "" then [] else decode(StripFences(t)).GetOr([])
  }

  /** The query of `get_approved_raw_ideas`: `human_approved == True` and `reel_generated == False`, both present. */
  predicate Approved(item: Item) {
    item.humanApproved == Some(true) && item.reelGenerated == Some(false)
  }

  function ApprovedIds(m: map<Digest, Item>): set<Digest> {
    set k | k in m && Approved(m[k])
  }

  /** A record without the approval fields (as from the RSS curator) is never selected. */
  lemma UnflaggedNeverSelected(m: map<Digest, Item>, k: Digest)
    requires k in m && (m[k].humanApproved.None? || m[k].reelGenerated.None?)
    ensures k !in ApprovedIds(m)
  {
  }

  /** What `mark_raw_idea_as_processed` writes on a record at time `now`. */
  function Marked(item: Item, now: int): (m: Item)
    ensures m.reelGenerated == Some(true) && !Approved(m)
    ensures m.(reelGenerated := item.reelGenerated, reelGeneratedAt := item.reelGeneratedAt) == item
  {
    item.(reelGenerated := Some(true), reelGeneratedAt := Some(now))
  }

  /** `after` is a marked version of `before`. */
  predicate IsMarkOf(after: Item, before: Item) {
    after.reelGeneratedAt.Some? && after == Marked(before, after.reelGeneratedAt.value)
  }

  /** The ideas selected in `before` that are marked in `after`. */
  function MarkedIds(before: map<Digest, Item>, after: map<Digest, Item>): set<Digest> {
    set k | k in ApprovedIds(before) && k in after && after[k].reelGenerated == Some(true)
  }

  /** Marking an unmarked selected idea adds exactly that idea to the marked ones. */
  lemma MarkingAddsOne(before: map<Digest, Item>, m: map<Digest, Item>, id: Digest, now: int)
    requires id in ApprovedIds(before) && id in m && m[id] == before[id]
    ensures id !in MarkedIds(before, m)
    ensures MarkedIds(before, m[id := Marked(m[id], now)]) == MarkedIds(before, m) + {id}
  {
  }

  /** `now` has the keys of `before`, and differs from it only by marking ideas of `done`. */
  predicate History(before: map<Digest, Item>, now: map<Digest, Item>, done: seq<Digest>) {
    now.Keys == before.Keys
    && forall k :: k in now ==> now[k] == before[k] || (k in done && IsMarkOf(now[k], before[k]))
  }

  /** Once every selected idea is handled, only selected ideas can have been marked. */
  lemma Settle(before: map<Digest, Item>, after: map<Digest, Item>, ideas: seq<Digest>)
    requires History(before, after, ideas)
    requires forall k :: k in ideas <==> k in ApprovedIds(before)
    ensures after.Keys == before.Keys
    ensures forall k :: k in after ==>
      after[k] == before[k] || (k in ApprovedIds(before) && IsMarkOf(after[k], before[k]))
  {
  }

  /** An idea not yet handled still holds its record as it was before the run. */
  lemma Untouched(before: map<Digest, Item>, now: map<Digest, Item>, done: seq<Digest>, id: Digest)
    requires History(before, now, done) && id in now && id !in done
    ensures now[id] == before[id]
  {
  }

  /** Handling one more idea, marked or not, keeps the history. */
  lemma HistoryStep(before: map<Digest, Item>, now: map<Digest, Item>, done: seq<Digest>, id: Digest, t: int)
    requires History(before, now, done) && id in now && id !in done
    ensures History(before, now, done + [id])
    ensures History(before, now[id := Marked(now[id], t)], done + [id])
  {
    var after := now[id := Marked(now[id], t)];
    assert now[id] == before[id];
    forall k | k in after
      ensures after[k] == before[k] || (k in done + [id] && IsMarkOf(after[k], before[k]))
    {
      if k != id {
        assert after[k] == now[k];
      }
    }
  }

  /**
   * Handling one selected idea not handled before: the history grows by it,
   * and the marked ideas grow by one exactly when it was marked.
   */
  lemma Advance(before: map<Digest, Item>, m: map<Digest, Item>, after: map<Digest, Item>,
                done: seq<Digest>, id: Digest, t: int, marked: bool)
    requires History(before, m, done) && id in ApprovedIds(before) && id !in done && id in m
    requires marked ==> after == m[id := Marked(m[id], t)]
    requires !marked ==> after == m
    ensures History(before, after, done + [id])
    ensures |MarkedIds(before, after)| == |MarkedIds(before, m)| + (if marked then 1 else 0)
  {
    Untouched(before, m, done, id);
    HistoryStep(before, m, done, id, t);
    MarkingAddsOne(before, m, id, t);
  }

  /** The outcome of one idea in `process_all_approved_ideas`. */
  datatype IdeaOutcome = Processed(reels: nat) | Failed {
    function Reels(): nat {
      if Processed? then reels else 0
    }
  }

  /** The dictionary `process_all_approved_ideas` returns (its message text is not modelled). */
  datatype ProcessReport = ProcessReport(processedIdeas: nat, failedIdeas: nat, generatedReels: nat, success: bool)

  /** `reels_per_idea or DEFAULT_REELS_PER_IDEA`. */
  function ReelsPerIdeaOr(requested: Option<int>): (n: int)
    ensures n != 0
    ensures requested.Some? && requested.value != 0 ==> n == requested.value
  {
    if requested.None? || requested.value == 0 then DefaultReelsPerIdea else requested.value
  }

  class ReelGenerator {
    const db: Firestore
    const gemini: Gemini
    const clock: Clock
    const reelsPerIdea: int
    /** `json.loads` of a cleaned reply: the reel objects, or None when the text is not valid JSON. */
    const decodeReels: string -> Option<seq<Reel>>
    /** The requests made to the model so far. */
    var calls: nat

    constructor (db: Firestore, gemini: Gemini, clock: Clock, reelsPerIdea: Option<int>, decodeReels: string -> Option<seq<Reel>>)
      ensures this.db == db && this.gemini == gemini && this.clock == clock && this.decodeReels == decodeReels
      ensures this.reelsPerIdea == ReelsPerIdeaOr(reelsPerIdea) && calls == 0
    {
      this.db := db;
      this.gemini := gemini;
      this.clock := clock;
      this.reelsPerIdea := ReelsPerIdeaOr(reelsPerIdea);
      this.decodeReels := decodeReels;
      calls := 0;
    }

    /** `get_approved_raw_ideas`: the ids of the records the query selects, each once, in the order they are streamed. */
    method GetApprovedRawIdeas() returns (ideas: seq<Digest>)
      ensures Distinct(ideas)
      ensures forall k :: k in ideas <==> k in ApprovedIds(db.rawIdeas)
      ensures |ideas| == |ApprovedIds(db.rawIdeas)|
    {
      var selected := ApprovedIds(db.rawIdeas);
      ideas := [];
      var rest := selected;
      while rest != {}
        invariant rest <= selected
        invariant Distinct(ideas)
        invariant forall k :: k in ideas <==> k in selected && k !in rest
        invariant |ideas| + |rest| == |selected|
        decreases |rest|
      {
        var k :| k in rest;
        ideas := ideas + [k];
        rest := rest - {k};
      }
    }

    /**
     * The branch `_make_gemini_request_with_retry` takes on one reply, as
     * `Classify` states it. It is a method because the delay of a
     * rate-limit error comes from the `ExtractRetryDelay` loop, which a
     * function cannot call.
     */
    method Judge(reply: Reply) returns (verdict: Verdict)
      ensures verdict == Classify(reply)
    {
      if reply.Text? {
        verdict := if reply.text != "" then Answer(reply.text) else RetryAfter(EmptyReplyDelay);
      } else if IsRateLimit(reply.message) {
        var delay := ExtractRetryDelay(reply.message);
        verdict := RetryAfter(delay);
      } else {
        verdict := GiveUp;
      }
    }

    /** One request of `_make_gemini_request_with_retry`, the `attempt`-th since the client had made `first`, and its verdict. */
    method Attempt(prompt: Prompt, ghost first: nat, ghost attempt: nat) returns (verdict: Verdict)
      requires attempt < MaxRetries && calls == first + attempt
      modifies this`calls
      ensures verdict == Verdicts(gemini, prompt, first)[attempt] && calls == old(calls) + 1
    {
      var reply := gemini(prompt, calls);
      VerdictOf(gemini, prompt, first, attempt, reply);
      verdict := Judge(reply);
      calls := calls + 1;
    }

    /** `_make_gemini_request_with_retry`: the attempts `RequestOutcome` describes, with their waits on the clock. */
    method MakeGeminiRequestWithRetry(prompt: Prompt) returns (text: Option<string>)
      modifies this`calls, clock
      ensures var o := RequestOutcome(Verdicts(gemini, prompt, old(calls)), 0);
        && text == o.text
        && calls == old(calls) + o.requests
        && clock.now == old(clock.now) + Sum(o.waits)
    {
      var attempt := 0;
      ghost var first := calls;
      ghost var t0 := clock.now;
      ghost var vs := Verdicts(gemini, prompt, first);
      ghost var waits: seq<int> := [];
      ContinueResumes(vs, 0, []);
      ghost var o := Continue(vs, 0, []);
      assert [] + RequestOutcome(vs, 0).waits == RequestOutcome(vs, 0).waits;
      text := None;
      while attempt < MaxRetries
        invariant attempt <= MaxRetries && calls == first + attempt && |waits| == attempt
        invariant clock.now == t0 + Sum(waits)
        invariant Continue(vs, attempt, waits) == o && text == None
      {
        var verdict := Attempt(prompt, first, attempt);
        if verdict.Answer? {
          text := Some(verdict.text);
          break;
        } else if verdict.GiveUp? || attempt == MaxRetries - 1 {
          break;
        }
        clock.Sleep(verdict.seconds);
        assert (waits + [verdict.seconds])[..|waits|] == waits;
        waits := waits + [verdict.seconds];
        attempt := attempt + 1;
      }
    }

    /** `generate_reels_for_idea`: the decoded batch, kept whatever its length; nothing on a failed request or bad JSON. */
    method GenerateReelsForIdea(id: Digest) returns (reels: seq<Reel>)
      modifies this`calls, clock
      ensures var o := RequestOutcome(Verdicts(gemini, ReelIdeas(id, reelsPerIdea), old(calls)), 0);
        && reels == ReelsFromReply(decodeReels, o.text)
        && calls == old(calls) + o.requests
        && clock.now == old(clock.now) + Sum(o.waits)
    {
      var text := MakeGeminiRequestWithRetry(ReelIdeas(id, reelsPerIdea));
      if text.None? || text.value == "" {
        return [];
      }
      var decoded := decodeReels(StripFences(text.value));
      reels := decoded.GetOr([]);
    }

    /** `save_reels_to_firestore`: one new document per reel in one batch; an empty batch writes nothing and fails. */
    method SaveReels(reels: seq<Reel>) returns (ok: bool)
      modifies db`reelIdeas
      ensures ok <==> reels != []
      ensures db.reelIdeas == old(db.reelIdeas) + reels
    {
      if reels == [] {
        assert db.reelIdeas + reels == db.reelIdeas;
        return false;
      }
      db.reelIdeas := db.reelIdeas + reels;
      ok := true;
    }

    /** `mark_raw_idea_as_processed`: sets the flag and its time on an existing record; a missing record fails. */
    method MarkRawIdeaAsProcessed(id: Digest) returns (ok: bool)
      modifies db`rawIdeas
      ensures ok <==> id in old(db.rawIdeas)
      ensures ok ==> db.rawIdeas == old(db.rawIdeas)[id := Marked(old(db.rawIdeas)[id], clock.now)]
      ensures !ok ==> db.rawIdeas == old(db.rawIdeas)
    {
      if id !in db.rawIdeas {
        return false;
      }
      db.rawIdeas := db.rawIdeas[id := Marked(db.rawIdeas[id], clock.now)];
      ok := true;
    }

    /** One idea of `process_all_approved_ideas`: generate, save, then mark, and count a failure at the first step that fails. */
    method ProcessIdea(id: Digest) returns (outcome: IdeaOutcome)
      requires id in db.rawIdeas
      modifies db`rawIdeas, db`reelIdeas, this`calls, clock
      ensures var reels := ReelsFromReply(decodeReels, RequestOutcome(Verdicts(gemini, ReelIdeas(id, reelsPerIdea), old(calls)), 0).text);
        && (outcome.Processed? <==> reels != [])
        && db.reelIdeas == old(db.reelIdeas) + reels
        && outcome.Reels() == |reels|
      ensures outcome.Processed? ==> db.rawIdeas == old(db.rawIdeas)[id := Marked(old(db.rawIdeas)[id], clock.now)]
      ensures outcome.Failed? ==> db.rawIdeas == old(db.rawIdeas)
      ensures clock.now >= old(clock.now)
    {
      var reels := GenerateReelsForIdea(id);
      WaitsAtLeastBuffer(Verdicts(gemini, ReelIdeas(id, reelsPerIdea), old(calls)), 0);
      if reels == [] {
        return Failed;
      }
      var saved := SaveReels(reels);
      if !saved {
        // Saving fails only for an empty list, which was turned away above.
        assert false;
      }
      var marked := MarkRawIdeaAsProcessed(id);
      if !marked {
        // Marking fails only for a missing record, and the idea's record is still there.
        assert false;
      }
      outcome := Processed(|reels|);
    }

    /**
     * One turn of the loop in `process_all_approved_ideas`: the idea is
     * processed and the counters and the history of marks move on by it.
     */
    method ProcessNext(id: Digest, ghost before: map<Digest, Item>, ghost done: seq<Digest>, ghost saved: seq<Reel>,
                       processed: nat, failed: nat, generated: nat)
      returns (processed': nat, failed': nat, generated': nat)
      requires id in ApprovedIds(before) && id !in done && History(before, db.rawIdeas, done)
      requires processed == |MarkedIds(before, db.rawIdeas)| && processed <= generated
      requires saved <= db.reelIdeas && |db.reelIdeas| == |saved| + generated
      modifies db`rawIdeas, db`reelIdeas, this`calls, clock
      ensures processed' + failed' == processed + failed + 1 && processed' <= generated'
      ensures saved <= db.reelIdeas && |db.reelIdeas| == |saved| + generated'
      ensures History(before, db.rawIdeas, done + [id])
      ensures processed' == |MarkedIds(before, db.rawIdeas)|
    {
      ghost var m := db.rawIdeas;
      var outcome := ProcessIdea(id);
      Advance(before, m, db.rawIdeas, done, id, clock.now, outcome.Processed?);
      if outcome.Processed? {
        processed', failed', generated' := processed + 1, failed, generated + outcome.reels;
      } else {
        processed', failed', generated' := processed, failed + 1, generated;
      }
    }

    /**
     * `process_all_approved_ideas`: every selected idea is counted once as
     * processed or failed, the saved reels are appended to REEL_IDEAS, and
     * an idea is marked exactly when its reels were saved.
     */
    method ProcessAllApprovedIdeas() returns (r: ProcessReport)
      modifies db`rawIdeas, db`reelIdeas, this`calls, clock
      ensures r.processedIdeas + r.failedIdeas == |ApprovedIds(old(db.rawIdeas))|
      ensures r.success <==> r.processedIdeas > 0 || ApprovedIds(old(db.rawIdeas)) == {}
      ensures r.processedIdeas <= r.generatedReels
      ensures old(db.reelIdeas) <= db.reelIdeas && |db.reelIdeas| == |old(db.reelIdeas)| + r.generatedReels
      ensures db.rawIdeas.Keys == old(db.rawIdeas).Keys
      ensures forall k :: k in db.rawIdeas ==>
        db.rawIdeas[k] == old(db.rawIdeas)[k] || (k in ApprovedIds(old(db.rawIdeas)) && IsMarkOf(db.rawIdeas[k], old(db.rawIdeas)[k]))
      ensures r.processedIdeas == |MarkedIds(old(db.rawIdeas), db.rawIdeas)|
    {
      var ideas := GetApprovedRawIdeas();
      if ideas == [] {
        assert |ApprovedIds(db.rawIdeas)| == 0;
        return ProcessReport(0, 0, 0, true);
      }
      var processed, failed, generated := 0, 0, 0;
      ghost var before := db.rawIdeas;
      ghost var saved := db.reelIdeas;
      var i := 0;
      while i < |ideas|
        invariant 0 <= i <= |ideas|
        invariant processed + failed == i && processed <= generated
        invariant saved <= db.reelIdeas && |db.reelIdeas| == |saved| + generated
        invariant History(before, db.rawIdeas, ideas[..i])
        invariant processed == |MarkedIds(before, db.rawIdeas)|
      {
        var id := ideas[i];
        ghost var done := ideas[..i];
        assert ideas[..i + 1] == done + [id];
        assert id in ApprovedIds(before) && id !in done;
        processed, failed, generated := ProcessNext(id, before, done, saved, processed, failed, generated);
        i := i + 1;
      }
      assert ideas[..i] == ideas;
      Settle(before, db.rawIdeas, ideas);
      r := ProcessReport(processed, failed, generated, processed > 0);
    }
  }
}
