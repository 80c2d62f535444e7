/**
 * The generation client's pure logic: the retry wrapper with exponential
 * backoff, the first-match search for an image payload in a backend
 * response, and the two card builders.
 *
 * Every backend call is an oracle input: an `Outcome` that is either the
 * backend's answer or the message of the error it threw. A retried operation
 * is given as the sequence of outcomes its successive invocations produce.
 */
module GeminiService {
  import opened Types

  // ---------------------------------------------------------------------------
  // Substring search and error classification
  // ---------------------------------------------------------------------------

  /** `sub` occurs in `s` starting at index `i`. */
  predicate OccursAt(s: string, sub: string, i: nat)
  {
    i + |sub| <= |s| && s[i..i + |sub|] == sub
  }

  /** JavaScript's `s.includes(sub)`, as a left-to-right scan. */
  predicate Includes(s: string, sub: string): (b: bool)
    ensures b ==> |sub| <= |s|
    ensures |sub| == 0 ==> b
    decreases |s|
  {
    |sub| <= |s| && (s[..|sub|] == sub || Includes(s[1..], sub))
  }

  /** The scan agrees with the positional definition of a substring, in both directions. */
  lemma {:induction false} IncludesIff(s: string, sub: string)
    ensures Includes(s, sub) <==> exists i: nat :: OccursAt(s, sub, i)
    decreases |s|
  {
    if |sub| <= |s| {
      if s[..|sub|] == sub {
        assert OccursAt(s, sub, 0);
      } else {
        IncludesIff(s[1..], sub);
        if Includes(s[1..], sub) {
          var i: nat :| OccursAt(s[1..], sub, i);
          assert s[1..][i..i + |sub|] == s[i + 1..i + 1 + |sub|];
          assert OccursAt(s, sub, i + 1);
        } else {
          forall i: nat | OccursAt(s, sub, i)
            ensures false
          {
            if i > 0 {
              assert s[1..][i - 1..i - 1 + |sub|] == s[i..i + |sub|];
              assert OccursAt(s[1..], sub, i - 1);
            }
          }
        }
      }
    }
  }

  /** A string in which the first character of `sub` never appears does not include `sub`. */
  lemma {:induction false} NotIncludesWithoutFirstChar(s: string, sub: string)
    requires |sub| > 0 && sub[0] !in s
    ensures !Includes(s, sub)
    decreases |s|
  {
    if |sub| <= |s| {
      assert s[0] in s;
      assert s[..|sub|][0] == s[0];
      NotIncludesWithoutFirstChar(s[1..], sub);
    }
  }

  /** The error classes the wrapper retries: rate limit, quota exhaustion, overload. */
  predicate RetryWorthy(message: string): (b: bool)
    ensures b <==> exists i: nat ::
      OccursAt(message, "429", i) || OccursAt(message, "quota", i) || OccursAt(message, "503", i)
  {
    IncludesIff(message, "429");
    IncludesIff(message, "quota");
    IncludesIff(message, "503");
    Includes(message, "429") || Includes(message, "quota") || Includes(message, "503")
  }

  /** A plain "500" error is not retried, although the comment beside the test names it. */
  lemma InternalServerErrorIsFatal()
    ensures !RetryWorthy("500")
  {
    NotIncludesWithoutFirstChar("500", "429");
    NotIncludesWithoutFirstChar("500", "quota");
    assert "500"[..3][2] != "503"[2];
    assert "500"[1..] == "00";
  }

  // ---------------------------------------------------------------------------
  // withRetry
  // ---------------------------------------------------------------------------

  const DefaultRetries: nat := 3
  const DefaultDelay: nat := 2000

  function Pow2(n: nat): (p: nat)
    ensures p >= 1
  {
    if n == 0 then 1 else 2 * Pow2(n - 1)
  }

  /** What one `withRetry` run produced: what it returned or threw, and the waits it made, in order. */
  datatype RetryRun<T> = RetryRun(result: Outcome<T>, delays: seq<nat>)

  /**
   * `withRetry(fn, retries, delay)` where the k-th invocation of `fn` ends
   * with `outcomes[k]`. There is one outcome for every invocation that can
   * happen (at most `retries + 1`). Invocation k + 1 follows the k-th wait,
   * so the wrapper invoked `fn` exactly `|delays| + 1` times.
   */
  function WithRetry<T>(outcomes: seq<Outcome<T>>, retries: nat, delay: nat): (r: RetryRun<T>)
    requires retries < |outcomes|
    ensures |r.delays| <= retries
    ensures r.result == outcomes[|r.delays|]
    ensures |r.delays| > 0 ==> r.delays[0] == delay
    ensures forall i :: 0 < i < |r.delays| ==> r.delays[i] == 2 * r.delays[i - 1]
    ensures forall i :: 0 <= i < |r.delays| ==> outcomes[i].Err? && RetryWorthy(outcomes[i].message)
    ensures r.result.Err? ==> |r.delays| == retries || !RetryWorthy(r.result.message)
    decreases retries
  {
    match outcomes[0]
    case Ok(v) => RetryRun(Ok(v), [])
    case Err(message) =>
      if retries > 0 && RetryWorthy(message) then
        var rest := WithRetry(outcomes[1..], retries - 1, delay * 2);
        RetryRun(rest.result, [delay] + rest.delays)
      else
        RetryRun(Err(message), [])
  }

  /** The k-th wait is `delay * 2^k`: 2000, 4000, 8000 ms with the defaults. */
  lemma {:induction false} DelayIsGeometric<T>(outcomes: seq<Outcome<T>>, retries: nat, delay: nat, k: nat)
    requires retries < |outcomes|
    requires k < |WithRetry(outcomes, retries, delay).delays|
    ensures WithRetry(outcomes, retries, delay).delays[k] == delay * Pow2(k)
  {
    if k > 0 {
      DelayIsGeometric(outcomes, retries, delay, k - 1);
      calc {
        delay * Pow2(k);
        delay * (2 * Pow2(k - 1));
        2 * (delay * Pow2(k - 1));
      }
    }
  }

  /** The outcomes of a stub that fails `k` times with a rate-limit error, then returns `v`. */
  function RateLimitedThenOk<T>(k: nat, v: T, n: nat): (s: seq<Outcome<T>>)
    ensures |s| == n
  {
    seq(n, i => if i < k then Err("429") else Ok(v))
  }

  /**
   * Against a stub that is rate-limited `k` times and then succeeds, the
   * wrapper succeeds exactly when `k <= retries`, after waiting
   * `delay, 2*delay, ...` once per failure it retried.
   */
  lemma {:induction false} RetryBound<T>(k: nat, v: T, retries: nat, delay: nat)
    ensures var r := WithRetry(RateLimitedThenOk(k, v, retries + 1), retries, delay);
      && (r.result.Ok? <==> k <= retries)
      && (r.result.Ok? ==> r.result.value == v)
      && |r.delays| == (if k <= retries then k else retries)
    decreases retries
  {
    var outcomes := RateLimitedThenOk(k, v, retries + 1);
    if k > 0 {
      assert outcomes[0] == Err("429");
      assert "429"[..3] == "429";
      assert RetryWorthy("429");
      if retries > 0 {
        assert outcomes[1..] == RateLimitedThenOk(k - 1, v, retries);
        RetryBound(k - 1, v, retries - 1, delay * 2);
      }
    }
  }

  /** With the default budget and delay, a stub that is always rate-limited is invoked four times, with waits of 2000, 4000 and 8000 ms, and its last error surfaces. */
  lemma DefaultBackoff<T>(v: T)
    ensures var r := WithRetry(RateLimitedThenOk(4, v, DefaultRetries + 1), DefaultRetries, DefaultDelay);
      r.delays == [2000, 4000, 8000] && r.result == Err("429")
  {
    var r := WithRetry(RateLimitedThenOk(4, v, DefaultRetries + 1), DefaultRetries, DefaultDelay);
    RetryBound(4, v, DefaultRetries, DefaultDelay);
    assert Pow2(1) == 2 && Pow2(2) == 4;
  }

  /** A first error that is not retry-worthy is rethrown at once, with no wait. */
  lemma FatalErrorFailsFast<T>(outcomes: seq<Outcome<T>>, retries: nat, delay: nat)
    requires retries < |outcomes|
    requires outcomes[0].Err? && !RetryWorthy(outcomes[0].message)
    ensures WithRetry(outcomes, retries, delay) == RetryRun(outcomes[0], [])
  {
  }

  // ---------------------------------------------------------------------------
  // Backend responses and extractBase64
  // ---------------------------------------------------------------------------

  datatype InlineData = InlineData(data: string)

  datatype Part = Part(inlineData: Option<InlineData>)

  /**
   * A response, reduced to the parts of its first candidate: `None` when any
   * link of `candidates[0].content.parts` is missing.
   */
  datatype Response = Response(parts: Option<seq<Part>>)

  /** Part `i` is the first part that carries inline data. */
  predicate FirstInlineAt(parts: seq<Part>, i: nat)
  {
    i < |parts| && parts[i].inlineData.Some? &&
    forall j :: 0 <= j < i ==> parts[j].inlineData.None?
  }

  /** The loop of `extractBase64`: the data of the first part with inline data. */
  function FirstInlineData(parts: seq<Part>): (r: Option<string>)
    ensures r.None? <==> forall i :: 0 <= i < |parts| ==> parts[i].inlineData.None?
    ensures r.Some? ==> exists i: nat :: FirstInlineAt(parts, i) && parts[i].inlineData.value.data == r.value
  {
    if |parts| == 0 then None
    else if parts[0].inlineData.Some? then
      assert FirstInlineAt(parts, 0);
      Some(parts[0].inlineData.value.data)
    else
      var r := FirstInlineData(parts[1..]);
      assert forall i :: 1 <= i < |parts| ==> parts[i] == parts[1..][i - 1];
      if r.Some? then
        var i: nat :| FirstInlineAt(parts[1..], i) && parts[1..][i].inlineData.value.data == r.value;
        assert FirstInlineAt(parts, i + 1);
        r
      else r
  }

  function ExtractBase64(resp: Response): (r: Option<string>)
    ensures resp.parts.None? ==> r.None?
    ensures resp.parts.Some? ==> r == FirstInlineData(resp.parts.value)
  {
    match resp.parts
    case None => None
    case Some(parts) => FirstInlineData(parts)
  }

  /** JavaScript truthiness of the extracted payload: present and not the empty string. */
  predicate Usable(p: Option<string>): (b: bool)
    ensures !b <==> p == None || p == Some("")
  {
    p.Some? && p.value != ""
  }

  // ---------------------------------------------------------------------------
  // Prompt composition and data URLs
  // ---------------------------------------------------------------------------

  const StyleSuffix := ", vector art, flat color, white background, simple, cute"
  const EditSuffix := ". Maintain exact style and background."
  const DataUrlPrefix := "data:image/png;base64,"

  /** An image request sent to the backend. */
  datatype ImageRequest =
    | TextPrompt(prompt: string)
    | EditRequest(imageData: string, instruction: string)

  /** One attempt's record: how it ended and the image requests it sent, in order. */
  datatype AttemptRun = AttemptRun(outcome: Outcome<Card>, requests: seq<ImageRequest>)

  // ---------------------------------------------------------------------------
  // generateCardPair
  // ---------------------------------------------------------------------------

  /** The parsed scenario object; `diffLocation` is taken as one of the five regions. */
  datatype Scenario = Scenario(
    originalPrompt: string,
    editInstruction: string,
    diffDescription: string,
    diffLocation: Quadrant)

  /**
   * What the backend does during one attempt of `generateCardPair`: the
   * scenario call (`Ok(None)` when the response has no text), the front
   * image call, the back image call, and the fresh card id. Answers the
   * attempt does not reach are not looked at.
   */
  datatype PairCalls = PairCalls(
    scenario: Outcome<Option<Scenario>>,
    front: Outcome<Response>,
    back: Outcome<Response>,
    id: string)

  /** The scenario call returned a scenario, and both images came back with a usable payload. */
  predicate PairSucceeds(c: PairCalls)
  {
    && c.scenario.Ok? && c.scenario.value.Some?
    && c.front.Ok? && Usable(ExtractBase64(c.front.value))
    && c.back.Ok? && Usable(ExtractBase64(c.back.value))
  }

  /** The body of the closure that `generateCardPair` hands to `withRetry`. */
  function PairAttempt(c: PairCalls): (r: AttemptRun)
    ensures r.outcome.Ok? <==> PairSucceeds(c)
    ensures r.outcome.Ok? ==>
      var s := c.scenario.value.value;
      && r.outcome.value == Card(
           c.id,
           DataUrlPrefix + ExtractBase64(c.front.value).value,
           DataUrlPrefix + ExtractBase64(c.back.value).value,
           s.diffDescription, s.diffLocation, s.originalPrompt)
    ensures |r.requests| <= 2
    ensures |r.requests| > 0 <==> c.scenario.Ok? && c.scenario.value.Some?
    ensures |r.requests| > 0 ==> r.requests[0] == TextPrompt(c.scenario.value.value.originalPrompt + StyleSuffix)
    ensures |r.requests| == 2 <==> |r.requests| > 0 && c.front.Ok? && Usable(ExtractBase64(c.front.value))
    ensures |r.requests| == 2 ==>
      r.requests[1] == EditRequest(ExtractBase64(c.front.value).value, c.scenario.value.value.editInstruction + EditSuffix)
    ensures c.scenario.Err? ==> r.outcome == Err(c.scenario.message)
    ensures c.scenario == Ok(None) ==> r.outcome == Err("Failed to generate scenario")
    ensures |r.requests| == 1 && c.front.Err? ==> r.outcome == Err(c.front.message)
    ensures |r.requests| == 2 && c.back.Err? ==> r.outcome == Err(c.back.message)
    ensures |r.requests| == 1 && c.front.Ok? ==> r.outcome == Err("Blocked or failed Front Image")
    ensures |r.requests| == 2 && c.back.Ok? && !PairSucceeds(c) ==> r.outcome == Err("Blocked or failed Back Image")
  {
    match c.scenario
    case Err(m) => AttemptRun(Err(m), [])
    case Ok(None) => AttemptRun(Err("Failed to generate scenario"), [])
    case Ok(Some(s)) =>
      var frontRequest := TextPrompt(s.originalPrompt + StyleSuffix);
      match c.front
      case Err(m) => AttemptRun(Err(m), [frontRequest])
      case Ok(frontResponse) =>
        var front := ExtractBase64(frontResponse);
        if !Usable(front) then
          AttemptRun(Err("Blocked or failed Front Image"), [frontRequest])
        else
          var requests := [frontRequest, EditRequest(front.value, s.editInstruction + EditSuffix)];
          match c.back
          case Err(m) => AttemptRun(Err(m), requests)
          case Ok(backResponse) =>
            var back := ExtractBase64(backResponse);
            if !Usable(back) then
              AttemptRun(Err("Blocked or failed Back Image"), requests)
            else
              AttemptRun(
                Ok(Card(c.id, DataUrlPrefix + front.value, DataUrlPrefix + back.value,
                        s.diffDescription, s.diffLocation, s.originalPrompt)),
                requests)
  }

  /**
   * `generateCardPair`: the whole scenario + front + back sequence is retried
   * as one unit, attempt k using `attempts[k]`.
   */
  function GenerateCardPair(attempts: seq<PairCalls>): (r: RetryRun<Card>)
    requires DefaultRetries < |attempts|
    ensures |r.delays| <= DefaultRetries
    ensures r.result == PairAttempt(attempts[|r.delays|]).outcome
    ensures forall k :: 0 <= k < |r.delays| ==> !PairSucceeds(attempts[k])
  {
    WithRetry(PairOutcomes(attempts), DefaultRetries, DefaultDelay)
  }

  /** How each attempt of the pair builder ends. */
  function PairOutcomes(attempts: seq<PairCalls>): (r: seq<Outcome<Card>>)
    ensures |r| == |attempts|
    ensures forall k :: 0 <= k < |attempts| ==> r[k] == PairAttempt(attempts[k]).outcome
  {
    seq(|attempts|, k requires 0 <= k < |attempts| => PairAttempt(attempts[k]).outcome)
  }

  /** A message without the characters that start the three markers is never retried. */
  lemma FatalWithoutMarkerStarts(message: string)
    requires '4' !in message && 'q' !in message && '5' !in message
    ensures !RetryWorthy(message)
  {
    NotIncludesWithoutFirstChar(message, "429");
    NotIncludesWithoutFirstChar(message, "quota");
    NotIncludesWithoutFirstChar(message, "503");
  }

  /**
   * When every attempt is blocked at the front image, the pair builder fails
   * on its first attempt without waiting: the error names no retry-worthy class.
   */
  lemma BlockedPairFailsFast(attempts: seq<PairCalls>)
    requires DefaultRetries < |attempts|
    requires forall k :: 0 <= k < |attempts| ==>
      attempts[k].scenario.Ok? && attempts[k].scenario.value.Some? &&
      attempts[k].front.Ok? && !Usable(ExtractBase64(attempts[k].front.value))
    ensures GenerateCardPair(attempts) == RetryRun(Err("Blocked or failed Front Image"), [])
  {
    BlockedFrontIsFatal();
    assert PairOutcomes(attempts)[0] == Err("Blocked or failed Front Image");
    FatalErrorFailsFast(PairOutcomes(attempts), DefaultRetries, DefaultDelay);
  }

  /** The pair builder's front-image error carries none of the retry markers. */
  lemma BlockedFrontIsFatal()
    ensures !RetryWorthy("Blocked or failed Front Image")
  {
    var blocked := "Blocked or failed Front Image";
    assert '4' !in blocked && 'q' !in blocked && '5' !in blocked;
    FatalWithoutMarkerStarts(blocked);
  }

  /**
   * A rate-limited front-image call reaches `withRetry` unchanged, so the
   * whole pair is tried again after 2000 ms and the second attempt's card is kept.
   */
  lemma RateLimitedFrontIsRetried(attempts: seq<PairCalls>)
    requires DefaultRetries < |attempts|
    requires attempts[0].scenario.Ok? && attempts[0].scenario.value.Some?
    requires attempts[0].front == Err("429")
    requires PairSucceeds(attempts[1])
    ensures GenerateCardPair(attempts).delays == [DefaultDelay]
    ensures GenerateCardPair(attempts).result == PairAttempt(attempts[1]).outcome
    ensures GenerateCardPair(attempts).result.Ok?
  {
    assert Includes("429", "429");
    assert PairOutcomes(attempts)[0] == Err("429");
    assert PairOutcomes(attempts)[1].Ok?;
  }

  /** A successful attempt keeps its scenario's description, location and prompt, whatever they are. */
  lemma ScenarioCarriedIntoCard(c: PairCalls, s: Scenario)
    requires c.scenario == Ok(Some(s))
    requires c.front.Ok? && Usable(ExtractBase64(c.front.value))
    requires c.back.Ok? && Usable(ExtractBase64(c.back.value))
    ensures PairAttempt(c).outcome.Ok?
    ensures PairAttempt(c).outcome.value.diffDescription == s.diffDescription
    ensures PairAttempt(c).outcome.value.diffLocation == s.diffLocation
    ensures PairAttempt(c).outcome.value.prompt == s.originalPrompt
  {
  }

  // ---------------------------------------------------------------------------
  // generateSingleCard
  // ---------------------------------------------------------------------------

  /** The static subject pool distractors draw from. */
  const SimplePrompts: seq<string> := [
    "A cute red apple", "A happy yellow sun", "A blue ball", "A small green tree",
    "A cute cupcake", "A smiling star", "A simple flower", "A cute cat face",
    "A little duck", "A slice of watermelon", "A cute robot", "A purple balloon"
  ]

  /** A card with identical faces, no description, the default region and a pool subject. */
  predicate IsDistractor(c: Card)
  {
    c.frontImage == c.backImage && c.diffDescription == "" && c.diffLocation == Center &&
    c.prompt in SimplePrompts
  }

  /**
   * What the backend does during one attempt of `generateSingleCard`: the
   * pool index drawn (`floor(random() * 12)`), the image call, the fresh id.
   */
  datatype SingleCalls = SingleCalls(pick: nat, image: Outcome<Response>, id: string)

  predicate ValidPick(c: SingleCalls)
  {
    c.pick < |SimplePrompts|
  }

  /** The body of the closure that `generateSingleCard` hands to `withRetry`. */
  function SingleAttempt(c: SingleCalls): (r: AttemptRun)
    requires ValidPick(c)
    ensures r.requests == [TextPrompt(SimplePrompts[c.pick] + StyleSuffix)]
    ensures r.outcome.Ok? <==> c.image.Ok? && Usable(ExtractBase64(c.image.value))
    ensures r.outcome.Ok? ==>
      && IsDistractor(r.outcome.value)
      && r.outcome.value.id == c.id
      && r.outcome.value.prompt == SimplePrompts[c.pick]
      && r.outcome.value.frontImage == DataUrlPrefix + ExtractBase64(c.image.value).value
    ensures c.image.Err? ==> r.outcome == Err(c.image.message)
    ensures c.image.Ok? && !r.outcome.Ok? ==> r.outcome == Err("Blocked or failed Single Image")
  {
    var subject := SimplePrompts[c.pick];
    var requests := [TextPrompt(subject + StyleSuffix)];
    match c.image
    case Err(m) => AttemptRun(Err(m), requests)
    case Ok(response) =>
      var payload := ExtractBase64(response);
      if !Usable(payload) then
        AttemptRun(Err("Blocked or failed Single Image"), requests)
      else
        var dataUrl := DataUrlPrefix + payload.value;
        AttemptRun(Ok(Card(c.id, dataUrl, dataUrl, "", Center, subject)), requests)
  }

  /** `generateSingleCard`: one image call per attempt, retried by `withRetry`. */
  function GenerateSingleCard(attempts: seq<SingleCalls>): (r: RetryRun<Card>)
    requires DefaultRetries < |attempts|
    requires forall k :: 0 <= k < |attempts| ==> ValidPick(attempts[k])
    ensures |r.delays| <= DefaultRetries
    ensures r.result == SingleAttempt(attempts[|r.delays|]).outcome
    ensures r.result.Ok? ==> IsDistractor(r.result.value)
  {
    WithRetry(SingleOutcomes(attempts), DefaultRetries, DefaultDelay)
  }

  /** How each attempt of the distractor builder ends. */
  function SingleOutcomes(attempts: seq<SingleCalls>): (r: seq<Outcome<Card>>)
    requires forall k :: 0 <= k < |attempts| ==> ValidPick(attempts[k])
    ensures |r| == |attempts|
    ensures forall k :: 0 <= k < |attempts| ==> r[k] == SingleAttempt(attempts[k]).outcome
  {
    seq(|attempts|, k requires 0 <= k < |attempts| && ValidPick(attempts[k]) => SingleAttempt(attempts[k]).outcome)
  }
}
