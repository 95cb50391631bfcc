/**
 * The response classifier: the single place where an HTTP status code and a
 * response body are turned into a returned value or one of three exception kinds
 * (src/main.py, handle_api_response and the exception classes above it).
 */
module Classifier {
  import opened Wrappers
  import opened Values

  /** A response as the HTTP client delivers it: status, raw body text and decoded body. */
  datatype Response = Response(status: int, text: string, body: Json)

  /** One HTTP call: either a response arrives or the transport raises (timeout, refused, ...). */
  datatype Fetch = Delivered(response: Response) | NetworkFailure

  /** GitHubAPIError and its two subclasses, RateLimitError and AuthenticationError. */
  datatype ErrorKind = Generic | RateLimit | Authentication

  /** An exception raised by the classifier, carrying the original status code and body text. */
  datatype ApiError = ApiError(kind: ErrorKind, message: string, status: int, text: string)

  /**
   * What the classifier returns when it does not raise: the decoded body (200),
   * Python's `True` (204) or Python's `None` (404).
   */
  datatype Reply = Decoded(json: Json) | NoContent | Nothing

  /** Python truthiness of a returned value. */
  predicate TruthyReply(v: Reply) {
    match v
    case Decoded(j) => Truthy(j)
    case NoContent => true
    case Nothing => false
  }

  /** `v is True`: the singleton `True`, which a 204 returns and which a JSON body `true` decodes to. */
  predicate IsTrue(v: Reply) {
    v == NoContent || v == Decoded(JBool(true))
  }

  const RateLimitPhrase: string := "rate limit"

  /** ASCII lower-casing of one character. */
  function LowerChar(c: char): char {
    if 'A' <= c <= 'Z' then (c as int + 32) as char else c
  }

  /** `s.lower()`, on the ASCII letters. */
  function Lower(s: string): (r: string)
    ensures |r| == |s|
  {
    seq(|s|, i requires 0 <= i < |s| => LowerChar(s[i]))
  }

  /** `needle` occurs in `hay` starting at position `i`. */
  ghost predicate OccursAt(hay: string, needle: string, i: nat) {
    i + |needle| <= |hay| && hay[i..i + |needle|] == needle
  }

  /** The reading of `needle in hay` as a statement about positions. */
  ghost predicate Occurs(hay: string, needle: string) {
    exists i: nat :: OccursAt(hay, needle, i)
  }

  /** `needle in hay`, computed by trying every start position from the left. */
  function Contains(hay: string, needle: string): (r: bool)
    ensures r <==> Occurs(hay, needle)
    decreases |hay|
  {
    if |hay| < |needle| then
      assert forall i: nat :: !OccursAt(hay, needle, i);
      false
    else if hay[..|needle|] == needle then
      assert OccursAt(hay, needle, 0);
      true
    else
      var rest := Contains(hay[1..], needle);
      assert forall i: nat :: OccursAt(hay, needle, i + 1) <==> OccursAt(hay[1..], needle, i) by {
        forall i: nat ensures OccursAt(hay, needle, i + 1) <==> OccursAt(hay[1..], needle, i) {
          if i + 1 + |needle| <= |hay| {
            var here, there := hay[i + 1..i + 1 + |needle|], hay[1..][i..i + |needle|];
            assert forall k :: 0 <= k < |needle| ==> here[k] == there[k];
            assert here == there;
          }
        }
      }
      assert rest ==> Occurs(hay, needle) by {
        if rest {
          var i: nat :| OccursAt(hay[1..], needle, i);
          assert OccursAt(hay, needle, i + 1);
        }
      }
      assert Occurs(hay, needle) ==> rest by {
        if Occurs(hay, needle) {
          var i: nat :| OccursAt(hay, needle, i);
          assert i != 0;
          assert OccursAt(hay[1..], needle, i - 1);
        }
      }
      rest
  }

  /** `'rate limit' in text.lower()`. */
  predicate MentionsRateLimit(text: string) {
    Contains(Lower(text), RateLimitPhrase)
  }

  /** handle_api_response: return on 200, 204 and 404, raise on every other status. */
  function Classify(resp: Response): (r: Result<Reply, ApiError>)
    ensures r.Ok? <==> resp.status in {200, 204, 404}
    ensures resp.status == 200 ==> r == Ok(Decoded(resp.body))
    ensures resp.status == 204 ==> r == Ok(NoContent)
    ensures resp.status == 404 ==> r == Ok(Nothing)
    ensures r.Err? ==> r.error.status == resp.status && r.error.text == resp.text
    ensures r.Err? ==> (r.error.kind == Authentication <==> resp.status == 401)
    ensures r.Err? ==> (r.error.kind == RateLimit <==> resp.status == 403 && Occurs(Lower(resp.text), RateLimitPhrase))
  {
    if resp.status == 200 then
      Ok(Decoded(resp.body))
    else if resp.status == 204 then
      Ok(NoContent)
    else if resp.status == 401 then
      Err(ApiError(Authentication, "Invalid or expired GitHub token", resp.status, resp.text))
    else if resp.status == 403 then
      if MentionsRateLimit(resp.text) then
        Err(ApiError(RateLimit, "GitHub API rate limit exceeded", resp.status, resp.text))
      else
        Err(ApiError(Generic, "Access forbidden", resp.status, resp.text))
    else if resp.status == 404 then
      Ok(Nothing)
    else
      Err(ApiError(Generic, "API request failed", resp.status, resp.text))
  }

  /** The rate-limit test ignores case: upper-casing letters of the body never changes the verdict. */
  lemma {:induction false} RateLimitTestIgnoresCase(text: string, other: string)
    requires |text| == |other|
    requires forall i :: 0 <= i < |text| ==> LowerChar(text[i]) == LowerChar(other[i])
    ensures MentionsRateLimit(text) == MentionsRateLimit(other)
  {
    assert Lower(text) == Lower(other);
  }

  /** Lower-casing works character by character, so it distributes over concatenation. */
  lemma LowerConcat(a: string, b: string)
    ensures Lower(a + b) == Lower(a) + Lower(b)
  {
    assert forall k :: 0 <= k < |a + b| ==> Lower(a + b)[k] == (Lower(a) + Lower(b))[k];
  }

  /** A phrase placed between two strings occurs right after the first. */
  lemma OccursBetween(x: string, p: string, y: string)
    ensures OccursAt(x + p + y, p, |x|)
  {
    var whole := x + p + y;
    var window := whole[|x|..|x| + |p|];
    assert forall k :: 0 <= k < |p| ==> window[k] == p[k];
    assert window == p;
  }

  /** A 403 whose body reads "API rate limit exceeded" is a rate-limit error carrying the status and the body. */
  lemma RateLimitBodyScenario()
    ensures Classify(Response(403, "API rate limit exceeded", JNull))
            == Err(ApiError(RateLimit, "GitHub API rate limit exceeded", 403, "API rate limit exceeded"))
  {
    var before, after := "API ", " exceeded";
    assert "API rate limit exceeded" == before + RateLimitPhrase + after;
    LowerConcat(before + RateLimitPhrase, after);
    LowerConcat(before, RateLimitPhrase);
    assert Lower(RateLimitPhrase) == RateLimitPhrase;
    OccursBetween(Lower(before), RateLimitPhrase, Lower(after));
  }

  /** The phrase is found whatever its case: "RATE LIMIT" in a 403 body is a rate-limit error too. */
  lemma UpperCaseRateLimitScenario()
    ensures Classify(Response(403, "RATE LIMIT", JNull)).error.kind == RateLimit
  {
    assert Lower("RATE LIMIT") == RateLimitPhrase;
    assert OccursAt(Lower("RATE LIMIT"), RateLimitPhrase, 0);
  }

  /** A body without the letter "l" cannot mention a rate limit. */
  lemma {:induction false} NoLetterLNoRateLimit(text: string)
    requires forall k :: 0 <= k < |text| ==> LowerChar(text[k]) != 'l'
    ensures !MentionsRateLimit(text)
  {
    var lowered := Lower(text);
    forall i: nat ensures !OccursAt(lowered, RateLimitPhrase, i) {
      if i + |RateLimitPhrase| <= |lowered| {
        assert lowered[i..i + |RateLimitPhrase|][5] != RateLimitPhrase[5];
      }
    }
  }

  /** A 403 that does not mention rate limiting is a generic "Access forbidden" error. */
  lemma ForbiddenScenario()
    ensures Classify(Response(403, "Forbidden access", JNull)) == Err(ApiError(Generic, "Access forbidden", 403, "Forbidden access"))
  {
    NoLetterLNoRateLimit("Forbidden access");
  }
}
