/**
 * The Zhipu API client: API-key rotation, the retrying request of chat completion and web
 * search, the token budgets, the parsing of the server-sent-event streams, the image loop over
 * keys and retries, the video task polling, the MIME tables of the analysis calls and the
 * storyboard normalisation. Every HTTP exchange is an input: a function from the attempt (and
 * poll) number to what that request ends with. Sleeping is recorded as the computed number of
 * seconds.
 */
module ZhipuService {
  import opened Wrappers
  import opened Text
  import opened Json
  import opened Replies

  /** What one HTTP request ends with: a decoded body, an error status raised by
    * `raise_for_status` together with the error detail the handlers format, or any other
    * exception with its message. */
  datatype HttpResult = Received(body: Json) | Status(code: int, detail: string) | Broken(message: string)

  predicate RateLimited(h: HttpResult)
  {
    h.Status? && h.code == 429
  }

  function Pow2(n: nat): (r: nat)
    ensures r >= 1
  {
    if n == 0 then 1 else 2 * Pow2(n - 1)
  }

  /** `(2 ** attempt) * factor` seconds. */
  function BackoffWait(attempt: nat, factor: nat): nat
  {
    Pow2(attempt) * factor
  }

  /** The waits `(2 ** i) * factor` taken after the rate-limited attempts `i` = `a` .. `m - 2`;
    * the last attempt does not wait. */
  function Backoff(a: nat, m: int, factor: nat): (w: seq<nat>)
    ensures |w| == if a < m - 1 then m - 1 - a else 0
    ensures forall i :: 0 <= i < |w| ==> w[i] == BackoffWait(a + i, factor)
    decreases m - a
  {
    if a < m - 1 then [BackoffWait(a, factor)] + Backoff(a + 1, m, factor) else []
  }

  /** `c` copies of `x`. */
  function Repeat<T>(x: T, c: nat): (r: seq<T>)
    ensures |r| == c
    ensures forall i :: 0 <= i < c ==> r[i] == x
  {
    if c == 0 then [] else [x] + Repeat(x, c - 1)
  }

  // ---------------------------------------------------------------- API keys

  function AuthHeaders(key: string): map<string, string>
  {
    map["Authorization" := "Bearer " + key, "Content-Type" := "application/json"]
  }

  /** `(index + 1) % len(api_keys)`. */
  function NextKeyIndex(i: nat, n: nat): (r: nat)
    requires n > 0
    ensures r < n
  {
    (i + 1) % n
  }

  /** The key index after `k` switches. */
  function KeyIndexAfter(i: nat, n: nat, k: nat): (r: nat)
    requires n > 0
    ensures r < n || (k == 0 && r == i)
  {
    if k == 0 then i else NextKeyIndex(KeyIndexAfter(i, n, k - 1), n)
  }

  /** One switch moves to the following key, and from the last key back to the first. */
  lemma NextKeyIndexWraps(i: nat, n: nat)
    requires i < n
    ensures NextKeyIndex(i, n) == if i + 1 < n then i + 1 else 0
  {
  }

  /** `k` switches move the index `k` places round the ring of keys: past the last key they
    * continue from the first. */
  lemma {:induction false} KeyIndexAfterIsOffset(i: nat, n: nat, k: nat)
    requires i < n
    ensures KeyIndexAfter(i, n, k) == if i + k < n then i + k else KeyIndexAfter(0, n, i + k - n)
  {
    if k > 0 {
      KeyIndexAfterIsOffset(i, n, k - 1);
      if i + k - 1 < n {
        NextKeyIndexWraps(i + k - 1, n);
      }
    }
  }

  /** As many switches as there are keys come back to the key they started from, and fewer
    * never do. */
  lemma SwitchesReturnToStart(i: nat, n: nat)
    requires i < n
    ensures KeyIndexAfter(i, n, n) == i
    ensures forall k :: 0 < k < n ==> KeyIndexAfter(i, n, k) != i
  {
    KeyIndexAfterIsOffset(i, n, n);
    KeyIndexAfterIsOffset(0, n, i);
    forall k | 0 < k < n
      ensures KeyIndexAfter(i, n, k) != i
    {
      KeyIndexAfterIsOffset(i, n, k);
      if i + k >= n {
        KeyIndexAfterIsOffset(0, n, i + k - n);
      }
    }
  }

  /** The client: the primary and backup keys, the one in use and the request headers built
    * from it, and the separate key reserved for vision and search. */
  class Service {
    const apiKeys: seq<string>
    const maxApiKey: string
    const maxHeaders: map<string, string>
    var currentKeyIndex: nat
    var apiKey: string
    var headers: map<string, string>

    predicate Valid()
      reads this
    {
      |apiKeys| > 0 && currentKeyIndex < |apiKeys| && apiKey == apiKeys[currentKeyIndex] &&
      headers == AuthHeaders(apiKey) && maxHeaders == AuthHeaders(maxApiKey)
    }

    constructor (primary: string, backup: string, maxKey: string)
      ensures Valid()
      ensures apiKeys == [primary, backup] && maxApiKey == maxKey
      ensures currentKeyIndex == 0 && apiKey == primary
    {
      apiKeys := [primary, backup];
      maxApiKey := maxKey;
      maxHeaders := AuthHeaders(maxKey);
      currentKeyIndex := 0;
      apiKey := primary;
      headers := AuthHeaders(primary);
    }

    /** The headers `chat_completion` sends: the reserved key's when asked for, else the
      * current key's. */
    function ChatHeaders(useMaxKey: bool): (h: map<string, string>)
      reads this
      requires Valid()
      ensures "Authorization" in h && h["Authorization"] == "Bearer " + (if useMaxKey then maxApiKey else apiKey)
    {
      if useMaxKey then maxHeaders else headers
    }

    /** `switch_api_key`: the next key round the ring becomes current, and only the
      * Authorization header changes. */
    method SwitchApiKey()
      requires Valid()
      modifies this
      ensures Valid()
      ensures currentKeyIndex == NextKeyIndex(old(currentKeyIndex), |apiKeys|)
      ensures apiKey == apiKeys[currentKeyIndex]
      ensures headers == old(headers)["Authorization" := "Bearer " + apiKey]
    {
      currentKeyIndex := (currentKeyIndex + 1) % |apiKeys|;
      apiKey := apiKeys[currentKeyIndex];
      headers := headers["Authorization" := "Bearer " + apiKey];
    }

    /** `generate_image`: for each key in turn up to `maxRetries` requests; a 429 waits and
      * retries, and after the last retry moves on to the next key, or gives up on the last. */
    method GenerateImage(maxRetries: int, respond: (nat, nat) -> HttpResult)
      returns (outcome: ImageOutcome, used: seq<nat>, waits: seq<nat>)
      requires Valid()
      modifies this
      ensures Valid()
      ensures ImageRun(outcome, used, waits, currentKeyIndex) ==
        ImageFrom(0, 0, old(currentKeyIndex), |apiKeys|, maxRetries, respond)
    {
      ghost var total := ImageFrom(0, 0, currentKeyIndex, |apiKeys|, maxRetries, respond);
      used, waits := [], [];
      var keyAttempt: nat := 0;
      while keyAttempt < |apiKeys|
        invariant Valid()
        invariant total == Continued(used, waits, ImageFrom(keyAttempt, 0, currentKeyIndex, |apiKeys|, maxRetries, respond))
        decreases |apiKeys| - keyAttempt
      {
        var finished, keyOutcome, keyUsed, keyWaits := TryKey(keyAttempt, maxRetries, respond);
        ContinuedTwice(used, waits, keyUsed, keyWaits,
          ImageFrom(keyAttempt + 1, 0, currentKeyIndex, |apiKeys|, maxRetries, respond));
        used, waits := used + keyUsed, waits + keyWaits;
        if finished {
          outcome := keyOutcome;
          return;
        }
        keyAttempt := keyAttempt + 1;
      }
      outcome := ImageFailed(AllAttemptsFailed);
    }

    /** One pass of `generate_image`'s inner loop, on key attempt `keyAttempt`: either the call
      * ends here, or the key is given up and the next key attempt follows. */
    method TryKey(keyAttempt: nat, maxRetries: int, respond: (nat, nat) -> HttpResult)
      returns (finished: bool, outcome: ImageOutcome, used: seq<nat>, waits: seq<nat>)
      requires Valid() && keyAttempt < |apiKeys|
      modifies this
      ensures Valid()
      ensures finished ==>
        ImageRun(outcome, used, waits, currentKeyIndex) ==
        ImageFrom(keyAttempt, 0, old(currentKeyIndex), |apiKeys|, maxRetries, respond)
      ensures !finished ==>
        ImageFrom(keyAttempt, 0, old(currentKeyIndex), |apiKeys|, maxRetries, respond) ==
        Continued(used, waits, ImageFrom(keyAttempt + 1, 0, currentKeyIndex, |apiKeys|, maxRetries, respond))
    {
      ghost var total := ImageFrom(keyAttempt, 0, currentKeyIndex, |apiKeys|, maxRetries, respond);
      used, waits := [], [];
      finished, outcome := false, ImageFailed(AllAttemptsFailed);
      var attempt: nat := 0;
      while attempt < maxRetries
        invariant Valid()
        invariant total == Continued(used, waits, ImageFrom(keyAttempt, attempt, currentKeyIndex, |apiKeys|, maxRetries, respond))
        decreases maxRetries - attempt
      {
        var res := respond(keyAttempt, attempt);
        var idx := currentKeyIndex;
        ImageFromStep(keyAttempt, attempt, idx, |apiKeys|, maxRetries, respond);
        if res.Status? && res.code == 429 && attempt < maxRetries - 1 {
          ContinuedTwice(used, waits, [idx], [BackoffWait(attempt, 10)],
            ImageFrom(keyAttempt, attempt + 1, idx, |apiKeys|, maxRetries, respond));
          used, waits := used + [idx], waits + [BackoffWait(attempt, 10)];
          attempt := attempt + 1;
        } else {
          ContinuedTwice(used, waits, [idx], [], ImageFrom(keyAttempt + 1, 0, NextKeyIndex(idx, |apiKeys|), |apiKeys|, maxRetries, respond));
          used := used + [idx];
          if res.Status? && res.code == 429 && keyAttempt < |apiKeys| - 1 {
            SwitchApiKey();
          } else {
            finished := true;
            outcome := AttemptFailure(res);
          }
          break;
        }
      }
      if !finished && attempt >= maxRetries {
        ImageFromExhausted(keyAttempt, attempt, currentKeyIndex, |apiKeys|, maxRetries, respond);
      }
    }
  }

  /** What ends `generate_image` on an attempt that is not retried: the image of an answer,
    * the quota message for a 429 on the last key, or the error of any other failure. */
  function AttemptFailure(res: HttpResult): ImageOutcome
  {
    match res
    case Received(body) =>
      var url := ImageUrlOf(body);
      if url.Some? then ImageUrl(url.value) else ImageFailed(MissingUrl)
    case Status(code, detail) =>
      if code == 429 then ImageFailed(QuotaExhausted) else ImageFailed(StatusFailure(code, detail))
    case Broken(msg) => ImageFailed(Unexpected(msg))
  }

  /** One attempt of `generate_image` by the reference definition: a 429 with retries left
    * waits and retries; a 429 on the last retry of a key other than the last moves on to the
    * next key; anything else ends the call. */
  lemma ImageFromStep(k: nat, a: nat, idx: nat, n: nat, m: int, respond: (nat, nat) -> HttpResult)
    requires k < n && a < m
    ensures var res := respond(k, a);
      if res.Status? && res.code == 429 && a < m - 1 then
        ImageFrom(k, a, idx, n, m, respond) ==
        Continued([idx], [BackoffWait(a, 10)], ImageFrom(k, a + 1, idx, n, m, respond))
      else if res.Status? && res.code == 429 && k < n - 1 then
        ImageFrom(k, a, idx, n, m, respond) ==
        Continued([idx], [], ImageFrom(k + 1, 0, NextKeyIndex(idx, n), n, m, respond))
      else
        ImageFrom(k, a, idx, n, m, respond) == ImageRun(AttemptFailure(res), [idx], [], idx)
  {
  }

  /** A key whose retries are used up hands over to the next key attempt unchanged. */
  lemma ImageFromExhausted(k: nat, a: nat, idx: nat, n: nat, m: int, respond: (nat, nat) -> HttpResult)
    requires k < n && a >= m
    ensures ImageFrom(k, a, idx, n, m, respond) == ImageFrom(k + 1, 0, idx, n, m, respond)
  {
  }

  /** Continuing twice is continuing once with both prefixes. */
  lemma ContinuedTwice(used: seq<nat>, waits: seq<nat>, used2: seq<nat>, waits2: seq<nat>, r: ImageRun)
    ensures Continued(used, waits, Continued(used2, waits2, r)) == Continued(used + used2, waits + waits2, r)
  {
    assert used + (used2 + r.used) == (used + used2) + r.used;
    assert waits + (waits2 + r.waits) == (waits + waits2) + r.waits;
  }

  // ---------------------------------------------------------------- chat_completion, web_search

  /** The reply of a retried request: a body, nothing (no attempt was made), or the exception
    * that escaped: an HTTP status error or any other error. */
  datatype PostOutcome = Answer(body: Json) | NoAnswer | StatusError(code: int) | OtherError(message: string)

  /** An outcome with the number of requests made and the waits in between. */
  datatype Run<T> = Run(outcome: T, requests: nat, waits: seq<nat>)

  const ChatBackoffFactor := 5
  const SearchBackoffFactor := 3

  /** Attempts `attempt` .. `maxRetries - 1` of the retry loop. */
  function RetryFrom(attempt: nat, maxRetries: int, factor: nat, respond: nat -> HttpResult): (r: Run<PostOutcome>)
    decreases maxRetries - attempt
  {
    if attempt >= maxRetries then Run(NoAnswer, 0, [])
    else
      match respond(attempt)
      case Received(body) => Run(Answer(body), 1, [])
      case Status(code, _) =>
        if code == 429 && attempt < maxRetries - 1 then
          var rest := RetryFrom(attempt + 1, maxRetries, factor, respond);
          Run(rest.outcome, rest.requests + 1, [BackoffWait(attempt, factor)] + rest.waits)
        else Run(StatusError(code), 1, [])
      case Broken(msg) => Run(OtherError(msg), 1, [])
  }

  /** The loop of `chat_completion` (`factor` 5) and of `web_search` (`factor` 3). */
  method RetryingPost(maxRetries: int, factor: nat, respond: nat -> HttpResult)
    returns (outcome: PostOutcome, requests: nat, waits: seq<nat>)
    ensures Run(outcome, requests, waits) == RetryFrom(0, maxRetries, factor, respond)
  {
    ghost var total := RetryFrom(0, maxRetries, factor, respond);
    requests, waits := 0, [];
    var attempt: nat := 0;
    while attempt < maxRetries
      invariant requests == attempt
      invariant total == Run(RetryFrom(attempt, maxRetries, factor, respond).outcome,
                             requests + RetryFrom(attempt, maxRetries, factor, respond).requests,
                             waits + RetryFrom(attempt, maxRetries, factor, respond).waits)
      decreases maxRetries - attempt
    {
      ghost var rest := RetryFrom(attempt, maxRetries, factor, respond);
      var res := respond(attempt);
      requests := requests + 1;
      if res.Received? {
        assert rest == Run(Answer(res.body), 1, []);
        return Answer(res.body), requests, waits;
      } else if res.Broken? {
        assert rest == Run(OtherError(res.message), 1, []);
        return OtherError(res.message), requests, waits;
      } else if res.code == 429 && attempt < maxRetries - 1 {
        ghost var next := RetryFrom(attempt + 1, maxRetries, factor, respond);
        assert rest == Run(next.outcome, next.requests + 1, [BackoffWait(attempt, factor)] + next.waits);
        ghost var before := waits;
        waits := waits + [BackoffWait(attempt, factor)];
        attempt := attempt + 1;
        assert waits + next.waits == before + ([BackoffWait(attempt - 1, factor)] + next.waits);
      } else {
        assert rest == Run(StatusError(res.code), 1, []);
        return StatusError(res.code), requests, waits;
      }
    }
    outcome := NoAnswer;
  }

  /** At most `maxRetries` requests, one wait fewer than requests, the waits doubling from
    * `(2 ** attempt) * factor`; no reply at all exactly when no attempt is left, and a 429
    * escapes only from the last attempt. */
  lemma {:induction false} RetryShape(a: nat, m: int, f: nat, respond: nat -> HttpResult)
    ensures var r := RetryFrom(a, m, f, respond);
      (r.outcome.NoAnswer? <==> a >= m) &&
      (a < m ==> 1 <= r.requests <= m - a) &&
      |r.waits| == (if r.requests > 0 then r.requests - 1 else 0) &&
      (forall i :: 0 <= i < |r.waits| ==> r.waits[i] == BackoffWait(a + i, f)) &&
      (r.outcome == StatusError(429) ==> a + r.requests == m)
    decreases m - a
  {
    if a < m && RateLimited(respond(a)) && a < m - 1 {
      RetryShape(a + 1, m, f, respond);
      var rest := RetryFrom(a + 1, m, f, respond);
      var w := [BackoffWait(a, f)] + rest.waits;
      forall i | 0 <= i < |w|
        ensures w[i] == BackoffWait(a + i, f)
      {
        if i > 0 {
          assert w[i] == rest.waits[i - 1];
        }
      }
    }
  }

  /** Rate-limited on every attempt: all `maxRetries` requests are made, with the full
    * backoff between them, and the 429 escapes. */
  lemma {:induction false} RetryAllRateLimited(a: nat, m: int, f: nat, respond: nat -> HttpResult)
    requires a < m
    requires forall i :: RateLimited(respond(i))
    ensures RetryFrom(a, m, f, respond) == Run(StatusError(429), m - a, Backoff(a, m, f))
    decreases m - a
  {
    if a < m - 1 {
      RetryAllRateLimited(a + 1, m, f, respond);
    }
  }

  /** Rate-limited until attempt `k`, answered there: `k + 1` requests and the backoff for the
    * first `k`. */
  lemma {:induction false} RetryAnsweredAfterRateLimits(a: nat, k: nat, m: int, f: nat, respond: nat -> HttpResult, body: Json)
    requires a <= k < m
    requires forall i :: a <= i < k ==> RateLimited(respond(i))
    requires respond(k) == Received(body)
    ensures RetryFrom(a, m, f, respond) == Run(Answer(body), k + 1 - a, Backoff(a, k + 1, f))
    decreases k - a
  {
    if a < k {
      RetryAnsweredAfterRateLimits(a + 1, k, m, f, respond, body);
    }
  }

  /** Any other status escapes at once, without a retry. */
  lemma OtherStatusNotRetried(a: nat, m: int, f: nat, respond: nat -> HttpResult)
    requires a < m && respond(a).Status? && respond(a).code != 429
    ensures RetryFrom(a, m, f, respond) == Run(StatusError(respond(a).code), 1, [])
  {
  }

  // ---------------------------------------------------------------- generate_novel_stream

  /** `length_tokens.get(length, 1500)`. */
  function LengthTokens(length: string): (t: nat)
    ensures length == "short" ==> t == 800
    ensures length == "long" ==> t == 2500
    ensures length != "short" && length != "long" ==> t == 1500
  {
    var table := map["short" := 800, "medium" := 1500, "long" := 2500];
    if length in table then table[length] else 1500
  }

  /** Longer stories get larger budgets, and no budget is outside the three values. */
  lemma LengthTokensOrdered(length: string)
    ensures LengthTokens("short") < LengthTokens("medium") < LengthTokens("long")
    ensures LengthTokens(length) in {800, 1500, 2500}
  {
  }

  // ---------------------------------------------------------------- server-sent events

  const DataPrefix := "data: "
  const DoneMarker := "[DONE]"

  /** `chunk.get("choices", [{}])[0].get("delta", {}).get("content", "")`, `None` where a step
    * raises. */
  function DeltaContent(chunk: Json): (r: Option<Json>)
    ensures r.Some? ==> chunk.JObj?
  {
    if !chunk.JObj? then None
    else
      var choices := FieldOr(chunk.fields, "choices", JArr([JObj(map[])]));
      if !(choices.JArr? && |choices.items| > 0 && choices.items[0].JObj?) then None
      else
        var delta := FieldOr(choices.items[0].fields, "delta", JObj(map[]));
        if delta.JObj? then Some(FieldOr(delta.fields, "content", JStr(""))) else None
  }

  /** What one data payload yields: the content when it parses, reads and is truthy. Any
    * exception is swallowed by the bare `except` and the line is skipped. */
  function LineChunk(data: string, parse: Parser): (r: Option<Json>)
    ensures r.Some? ==> PyTruthy(r.value)
  {
    match parse(data)
    case None => None
    case Some(chunk) =>
      var c := DeltaContent(chunk);
      if c.Some? && PyTruthy(c.value) then c else None
  }

  predicate IsDone(line: string)
  {
    StartsWith(line, DataPrefix) && line[|DataPrefix|..] == DoneMarker
  }

  /** The chunks a stream yields: data lines only, up to the first `[DONE]`, in order. */
  function StreamChunks(lines: seq<string>, parse: Parser): (chunks: seq<Json>)
    ensures |chunks| <= |lines|
    ensures forall i :: 0 <= i < |chunks| ==> PyTruthy(chunks[i])
  {
    if lines == [] then []
    else if StartsWith(lines[0], DataPrefix) then
      var data := lines[0][|DataPrefix|..];
      if data == DoneMarker then []
      else
        match LineChunk(data, parse)
        case Some(c) => [c] + StreamChunks(lines[1..], parse)
        case None => StreamChunks(lines[1..], parse)
    else StreamChunks(lines[1..], parse)
  }

  /** The `async for line in response.aiter_lines()` loop of both streaming generators. */
  method ParseStream(lines: seq<string>, parse: Parser) returns (chunks: seq<Json>)
    ensures chunks == StreamChunks(lines, parse)
  {
    chunks := [];
    var i := 0;
    while i < |lines|
      invariant 0 <= i <= |lines|
      invariant StreamChunks(lines, parse) == chunks + StreamChunks(lines[i..], parse)
    {
      assert lines[i..][0] == lines[i] && lines[i..][1..] == lines[i + 1..];
      var line := lines[i];
      if StartsWith(line, DataPrefix) {
        var data := line[6..];
        if data == DoneMarker {
          assert StreamChunks(lines[i..], parse) == [];
          assert chunks + [] == chunks;
          break;
        }
        var c := LineChunk(data, parse);
        if c.Some? {
          assert chunks + ([c.value] + StreamChunks(lines[i + 1..], parse)) ==
            (chunks + [c.value]) + StreamChunks(lines[i + 1..], parse);
          chunks := chunks + [c.value];
        }
      }
      i := i + 1;
    }
  }

  /** Before any `[DONE]` line a stream is read line by line: the chunks of two pieces are the
    * chunks of the first followed by those of the second. */
  lemma {:induction false} StreamConcat(a: seq<string>, b: seq<string>, parse: Parser)
    requires forall i :: 0 <= i < |a| ==> !IsDone(a[i])
    ensures StreamChunks(a + b, parse) == StreamChunks(a, parse) + StreamChunks(b, parse)
  {
    if a != [] {
      assert (a + b)[0] == a[0] && (a + b)[1..] == a[1..] + b;
      StreamConcat(a[1..], b, parse);
    } else {
      assert a + b == b;
    }
  }

  /** Nothing after `[DONE]` is read. */
  lemma StreamStopsAtDone(a: seq<string>, b: seq<string>, parse: Parser)
    requires forall i :: 0 <= i < |a| ==> !IsDone(a[i])
    ensures StreamChunks(a + [DataPrefix + DoneMarker] + b, parse) == StreamChunks(a, parse)
  {
    assert a + [DataPrefix + DoneMarker] + b == a + ([DataPrefix + DoneMarker] + b);
    StreamConcat(a, [DataPrefix + DoneMarker] + b, parse);
    var l := DataPrefix + DoneMarker;
    assert StartsWith(l, DataPrefix) && l[|DataPrefix|..] == DoneMarker;
  }

  /** The chunk the service sends for one piece of text. */
  function DeltaChunk(text: string): Json
  {
    JObj(map["choices" := JArr([JObj(map["delta" := JObj(map["content" := JStr(text)])])])])
  }

  /** A well-formed delta line yields its text; a line that does not parse, or one carrying
    * empty content, yields nothing. */
  lemma DeltaLineYields(data: string, text: string, parse: Parser)
    requires data != DoneMarker
    ensures var l := DataPrefix + data;
      (parse(data) == Some(DeltaChunk(text)) && text != "" ==> StreamChunks([l], parse) == [JStr(text)]) &&
      (parse(data).None? ==> StreamChunks([l], parse) == []) &&
      (parse(data) == Some(DeltaChunk("")) ==> StreamChunks([l], parse) == [])
  {
    var l := DataPrefix + data;
    assert StartsWith(l, DataPrefix) && l[|DataPrefix|..] == data;
    var single: seq<string> := [l];
    assert single[1..] == [];
    var d := map["content" := JStr(text)];
    var c := map["delta" := JObj(d)];
    var m := map["choices" := JArr([JObj(c)])];
    assert FieldOr(m, "choices", JArr([JObj(map[])])) == JArr([JObj(c)]);
    assert FieldOr(c, "delta", JObj(map[])) == JObj(d);
    assert FieldOr(d, "content", JStr("")) == JStr(text);
    assert DeltaContent(DeltaChunk(text)) == Some(JStr(text));
  }

  // ---------------------------------------------------------------- generate_image

  datatype ImageError =
    | QuotaExhausted
    | BadRequest(detail: string)
    | InvalidKey(detail: string)
    | NoPermission(detail: string)
    | HttpFailure(code: int, detail: string)
    | MissingUrl
    | Unexpected(message: string)
    | AllAttemptsFailed

  datatype ImageOutcome = ImageUrl(url: Json) | ImageFailed(error: ImageError)

  /** The outcome, the key index each request went out with, the waits, and the key index
    * current at the end. */
  datatype ImageRun = ImageRun(outcome: ImageOutcome, used: seq<nat>, waits: seq<nat>, finalIndex: nat)

  const ImageFailurePrefix := "图像生成失败："
  const QuotaMessage := "图像生成配额已用完。CogView-4需要单独的图像生成配额（0.06元/次）。请检查：1) 账户余额是否充足 2) 是否有CogView-4的使用权限 3) 并发限制（V0用户5个并发）"

  /** The error a status other than 429 raises. */
  function StatusFailure(code: int, detail: string): (e: ImageError)
    ensures code == 400 <==> e.BadRequest?
    ensures code == 401 <==> e.InvalidKey?
    ensures code == 403 <==> e.NoPermission?
  {
    if code == 400 then BadRequest(detail)
    else if code == 401 then InvalidKey(detail)
    else if code == 403 then NoPermission(detail)
    else HttpFailure(code, detail)
  }

  /** The text of the raised exception; `None` for a body without a URL, whose `KeyError`
    * text is not modelled. An unexpected message already naming image generation is
    * re-raised as it is, any other is prefixed. */
  function ImageErrorMessage(e: ImageError): (r: Option<string>)
    ensures r.None? <==> e == MissingUrl
    ensures e.Unexpected? && Contains(e.message, "图像生成") ==> r == Some(e.message)
    ensures e.Unexpected? && !Contains(e.message, "图像生成") ==> r == Some(ImageFailurePrefix + e.message)
  {
    match e
    case QuotaExhausted => Some(QuotaMessage)
    case BadRequest(d) => Some("请求参数错误（400）：" + d + "。请检查prompt是否符合要求。")
    case InvalidKey(d) => Some("API密钥无效（401）：" + d + "。请检查ZHIPU_API_KEY配置。")
    case NoPermission(d) => Some("无权限访问（403）：" + d + "。该API密钥可能没有CogView-4的使用权限。")
    case HttpFailure(code, d) => Some("图像生成失败（HTTP " + IntToString(code) + "）：" + d)
    case MissingUrl => None
    case Unexpected(msg) => Some(if Contains(msg, "图像生成") then msg else ImageFailurePrefix + msg)
    case AllAttemptsFailed => Some(ImageFailurePrefix + "所有尝试均失败")
  }

  /** `result["data"][0]["url"]`, `None` where a lookup raises. */
  function ImageUrlOf(body: Json): (r: Option<Json>)
  {
    if body.JObj? && "data" in body.fields then
      match body.fields["data"]
      case JArr(items) =>
        if |items| > 0 && items[0].JObj? && "url" in items[0].fields then Some(items[0].fields["url"]) else None
      case _ => None
    else None
  }

  function Continued(used: seq<nat>, waits: seq<nat>, r: ImageRun): ImageRun
  {
    ImageRun(r.outcome, used + r.used, waits + r.waits, r.finalIndex)
  }

  /** Attempt `a` with key attempt `k` of `n`, the current key being `idx`. */
  function ImageFrom(k: nat, a: nat, idx: nat, n: nat, m: int, respond: (nat, nat) -> HttpResult): (r: ImageRun)
    decreases n - k, m - a
  {
    if k >= n then ImageRun(ImageFailed(AllAttemptsFailed), [], [], idx)
    else if a >= m then ImageFrom(k + 1, 0, idx, n, m, respond)
    else
      match respond(k, a)
      case Received(body) =>
        var url := ImageUrlOf(body);
        ImageRun(if url.Some? then ImageUrl(url.value) else ImageFailed(MissingUrl), [idx], [], idx)
      case Status(code, detail) =>
        if code == 429 then
          if a < m - 1 then
            Continued([idx], [BackoffWait(a, 10)], ImageFrom(k, a + 1, idx, n, m, respond))
          else if k < n - 1 then
            Continued([idx], [], ImageFrom(k + 1, 0, NextKeyIndex(idx, n), n, m, respond))
          else ImageRun(ImageFailed(QuotaExhausted), [idx], [], idx)
        else ImageRun(ImageFailed(StatusFailure(code, detail)), [idx], [], idx)
      case Broken(msg) => ImageRun(ImageFailed(Unexpected(msg)), [idx], [], idx)
  }

  /** `keys` blocks of `m` requests, each on the key after the previous block's. */
  function KeyRun(idx: nat, n: nat, keys: nat, m: nat): (r: seq<nat>)
    requires n > 0
    ensures |r| == keys * m
    decreases keys
  {
    if keys == 0 then [] else Repeat(idx, m) + KeyRun(NextKeyIndex(idx, n), n, keys - 1, m)
  }

  /** The order in which requests go out from attempt `a` of key attempt `k` on: the rest of
    * this key's retries, then every remaining key's in turn. */
  function Schedule(k: nat, a: nat, idx: nat, n: nat, m: nat): (r: seq<nat>)
    requires k < n && a <= m
    ensures |r| == (m - a) + (n - k - 1) * m
  {
    Repeat(idx, m - a) + KeyRun(NextKeyIndex(idx, n), n, n - k - 1, m)
  }

  /** With at least one retry, requests follow the schedule (so a key is given up only after
    * all its retries, and there are at most `n * maxRetries` requests) and the loop never
    * falls through to the closing "all attempts failed". */
  lemma {:induction false} ImageFollowsSchedule(k: nat, a: nat, idx: nat, n: nat, m: int, respond: (nat, nat) -> HttpResult)
    requires k < n && a < m
    ensures var r := ImageFrom(k, a, idx, n, m, respond);
      r.used <= Schedule(k, a, idx, n, m) && r.outcome != ImageFailed(AllAttemptsFailed)
    decreases n - k, m - a
  {
    var s := Schedule(k, a, idx, n, m);
    assert s[0] == idx;
    match respond(k, a)
    case Received(_) =>
    case Broken(_) =>
    case Status(code, _) =>
      if code == 429 {
        if a < m - 1 {
          ImageFollowsSchedule(k, a + 1, idx, n, m, respond);
          assert Repeat(idx, m - a) == [idx] + Repeat(idx, m - a - 1);
          assert s == [idx] + Schedule(k, a + 1, idx, n, m);
        } else if k < n - 1 {
          var next := NextKeyIndex(idx, n);
          ImageFollowsSchedule(k + 1, 0, next, n, m, respond);
          assert Repeat(idx, m - a) == [idx];
          assert KeyRun(next, n, n - k - 1, m) == Schedule(k + 1, 0, next, n, m);
          assert s == [idx] + Schedule(k + 1, 0, next, n, m);
        }
      }
  }

  /** Without any retry no request is made, and the loop ends in "all attempts failed". */
  lemma {:induction false} ImageWithoutRetries(k: nat, idx: nat, n: nat, m: int, respond: (nat, nat) -> HttpResult)
    requires m <= 0
    ensures ImageFrom(k, 0, idx, n, m, respond) == ImageRun(ImageFailed(AllAttemptsFailed), [], [], idx)
    decreases n - k
  {
    if k < n {
      ImageWithoutRetries(k + 1, idx, n, m, respond);
    }
  }

  /** Rate-limited throughout: every key gets all its retries in turn, the key moves on `n - 1`
    * times, and the quota message is raised. */
  lemma {:induction false} ImageAllRateLimited(k: nat, a: nat, idx: nat, n: nat, m: int, respond: (nat, nat) -> HttpResult)
    requires k < n && a < m && idx < n
    requires forall i, j :: RateLimited(respond(i, j))
    ensures var r := ImageFrom(k, a, idx, n, m, respond);
      r.outcome == ImageFailed(QuotaExhausted) &&
      r.used == Schedule(k, a, idx, n, m) &&
      r.finalIndex == KeyIndexAfter(idx, n, n - 1 - k)
    decreases n - k, m - a
  {
    var s := Schedule(k, a, idx, n, m);
    assert RateLimited(respond(k, a));
    if a < m - 1 {
      ImageAllRateLimited(k, a + 1, idx, n, m, respond);
      assert Repeat(idx, m - a) == [idx] + Repeat(idx, m - a - 1);
      assert s == [idx] + Schedule(k, a + 1, idx, n, m);
    } else if k < n - 1 {
      var next := NextKeyIndex(idx, n);
      ImageAllRateLimited(k + 1, 0, next, n, m, respond);
      assert Repeat(idx, m - a) == [idx];
      assert KeyRun(next, n, n - k - 1, m) == Schedule(k + 1, 0, next, n, m);
      assert s == [idx] + Schedule(k + 1, 0, next, n, m);
      KeyIndexAfterShift(idx, n, n - 2 - k);
    } else {
      assert Repeat(idx, m - a) == [idx];
      assert s == [idx];
    }
  }

  /** Switching once and then `k` times is switching `k + 1` times. */
  lemma {:induction false} KeyIndexAfterShift(i: nat, n: nat, k: nat)
    requires i < n
    ensures KeyIndexAfter(NextKeyIndex(i, n), n, k) == KeyIndexAfter(i, n, k + 1)
  {
    if k > 0 {
      KeyIndexAfterShift(i, n, k - 1);
    }
  }

  /** A request refused with 400, 401 or 403 is not retried and raises that status's error. */
  lemma ImageClientErrorNotRetried(k: nat, a: nat, idx: nat, n: nat, m: int, respond: (nat, nat) -> HttpResult)
    requires k < n && a < m
    requires respond(k, a).Status? && respond(k, a).code in {400, 401, 403}
    ensures var r := ImageFrom(k, a, idx, n, m, respond);
      r.used == [idx] && r.waits == [] && r.outcome.ImageFailed? &&
      (r.outcome.error.BadRequest? || r.outcome.error.InvalidKey? || r.outcome.error.NoPermission?)
  {
  }

  // ---------------------------------------------------------------- generate_video

  /** The video URL (`None` when the result item has none), no result at all when no attempt
    * was made, or a raised error with its text; `None` stands for a text made by Python
    * itself (an `AttributeError` on an unexpected shape), which is not modelled. */
  datatype VideoOutcome = VideoUrl(url: Json) | NoVideo | VideoFailed(message: Option<string>)

  const MaxPolls := 120
  const VideoFailurePrefix := "视频生成失败: "
  const TimeoutText := "超时(6分钟)"
  const MissingVideoUrl := "视频URL未返回"
  const ConcurrencyLimit := "并发限制或配额不足。请稍后重试或检查配额。"
  const RateLimitWait := 60

  /** The outer `except Exception`: a message already naming video generation is re-raised,
    * any other is prefixed. */
  function VideoWrapped(msg: string): (r: string)
    ensures Contains(r, "视频生成")
  {
    if Contains(msg, "视频生成") then msg
    else
      assert StartsWith(VideoFailurePrefix + msg, "视频生成");
      VideoFailurePrefix + msg
  }

  /** A message without a '视' is prefixed. */
  lemma WrappedPlain(msg: string)
    requires forall i :: 0 <= i < |msg| ==> msg[i] != '视'
    ensures VideoWrapped(msg) == VideoFailurePrefix + msg
  {
    MissingFirstChar(msg, "视频生成");
  }

  /** The result of a `SUCCESS` status: the first item's URL; a missing or empty result raises
    * "视频URL未返回". */
  function SuccessOutcome(videoResult: Json): (o: VideoOutcome)
    ensures !o.NoVideo?
    ensures !PyTruthy(videoResult) ==> o == VideoFailed(Some(VideoWrapped(MissingVideoUrl)))
    ensures videoResult.JArr? && |videoResult.items| > 0 && videoResult.items[0].JObj? ==>
      o == VideoUrl(FieldOr(videoResult.items[0].fields, "url", JNull))
  {
    if !PyTruthy(videoResult) then VideoFailed(Some(VideoWrapped(MissingVideoUrl)))
    else
      match videoResult
      case JArr(items) =>
        if |items| > 0 && items[0].JObj? then VideoUrl(FieldOr(items[0].fields, "url", JNull)) else VideoFailed(None)
      case _ => VideoFailed(None)
  }

  datatype PollStep = Pending | Finished(outcome: VideoOutcome)

  /** The message `FAILED` raises: `f"生成失败: {error.get('message', 'Unknown')}"`. */
  function FailedText(error: map<string, Json>, repr: Json -> string): (r: string)
    ensures StartsWith(r, "生成失败: ")
    ensures "message" !in error ==> r == "生成失败: Unknown"
  {
    var r := "生成失败: " + PyStr(FieldOr(error, "message", JStr("Unknown")), repr);
    assert r[..|"生成失败: "|] == "生成失败: ";
    r
  }

  /** One status body: `SUCCESS` ends the polling with the video, `FAILED` ends it with the
    * raised failure, any other status polls on. */
  function StatusStep(status: Json, repr: Json -> string): (s: PollStep)
    ensures s.Finished? ==> !s.outcome.NoVideo?
    ensures !status.JObj? ==> s == Finished(VideoFailed(None))
    ensures status.JObj? && FieldOr(status.fields, "task_status", JNull) == JStr("SUCCESS") ==>
      s == Finished(SuccessOutcome(FieldOr(status.fields, "video_result", JArr([]))))
    ensures status.JObj? && FieldOr(status.fields, "task_status", JNull) == JStr("FAILED") ==>
      s.Finished? && s.outcome.VideoFailed?
    ensures (status.JObj? && FieldOr(status.fields, "task_status", JNull) == JStr("FAILED") &&
             FieldOr(status.fields, "error", JObj(map[])).JObj?) ==>
      s == Finished(VideoFailed(Some(VideoWrapped(FailedText(FieldOr(status.fields, "error", JObj(map[])).fields, repr)))))
    ensures status.JObj? && FieldOr(status.fields, "task_status", JNull) !in {JStr("SUCCESS"), JStr("FAILED")} ==>
      s == Pending
  {
    if !status.JObj? then Finished(VideoFailed(None))
    else
      var taskStatus := FieldOr(status.fields, "task_status", JNull);
      if taskStatus == JStr("SUCCESS") then Finished(SuccessOutcome(FieldOr(status.fields, "video_result", JArr([]))))
      else if taskStatus == JStr("FAILED") then
        var error := FieldOr(status.fields, "error", JObj(map[]));
        if error.JObj? then
          Finished(VideoFailed(Some(VideoWrapped(FailedText(error.fields, repr)))))
        else Finished(VideoFailed(None))
      else Pending
  }

  /** How polling ends: settled with an outcome, or with an HTTP error status on the last
    * poll, which reaches the outer handler. */
  datatype PollEnd = Settled(outcome: VideoOutcome) | PollStatus(code: int, detail: string)

  datatype Polling = Polling(end: PollEnd, polls: nat)

  /** Polls `p` .. 119; an HTTP error before the last poll is skipped. */
  function PollFrom(p: nat, statusOf: nat -> HttpResult, repr: Json -> string): (r: Polling)
    ensures r.polls <= if p < MaxPolls then MaxPolls - p else 0
    ensures r.end.Settled? ==> !r.end.outcome.NoVideo?
    decreases MaxPolls - p
  {
    if p >= MaxPolls then Polling(Settled(VideoFailed(Some(VideoWrapped(TimeoutText)))), 0)
    else
      match statusOf(p)
      case Status(code, detail) =>
        if p < MaxPolls - 1 then
          var rest := PollFrom(p + 1, statusOf, repr);
          Polling(rest.end, rest.polls + 1)
        else Polling(PollStatus(code, detail), 1)
      case Broken(msg) => Polling(Settled(VideoFailed(Some(VideoWrapped(msg)))), 1)
      case Received(status) =>
        match StatusStep(status, repr)
        case Pending =>
          var rest := PollFrom(p + 1, statusOf, repr);
          Polling(rest.end, rest.polls + 1)
        case Finished(o) => Polling(Settled(o), 1)
  }

  /** The `for poll in range(max_polls)` loop. */
  method PollTask(statusOf: nat -> HttpResult, repr: Json -> string) returns (end: PollEnd, polls: nat)
    ensures Polling(end, polls) == PollFrom(0, statusOf, repr)
  {
    polls := 0;
    var p: nat := 0;
    while p < MaxPolls
      invariant p <= MaxPolls && polls == p
      invariant var rest := PollFrom(p, statusOf, repr);
        PollFrom(0, statusOf, repr) == Polling(rest.end, polls + rest.polls)
    {
      var res := statusOf(p);
      polls := polls + 1;
      match res {
        case Status(code, detail) =>
          if p == MaxPolls - 1 {
            return PollStatus(code, detail), polls;
          }
        case Broken(msg) =>
          return Settled(VideoFailed(Some(VideoWrapped(msg)))), polls;
        case Received(status) =>
          var step := StatusStep(status, repr);
          if step.Finished? {
            return Settled(step.outcome), polls;
          }
      }
      p := p + 1;
    }
    end := Settled(VideoFailed(Some(VideoWrapped(TimeoutText))));
  }

  /** Polls that stay pending until poll `q` settles end with what poll `q` says, after
    * `q - p + 1` polls. */
  lemma {:induction false} PollSettlesAt(p: nat, q: nat, statusOf: nat -> HttpResult, repr: Json -> string, o: VideoOutcome)
    requires p <= q < MaxPolls
    requires forall i :: p <= i < q ==> statusOf(i).Received? && StatusStep(statusOf(i).body, repr) == Pending
    requires statusOf(q).Received? && StatusStep(statusOf(q).body, repr) == Finished(o)
    ensures PollFrom(p, statusOf, repr) == Polling(Settled(o), q - p + 1)
    decreases q - p
  {
    if p < q {
      PollSettlesAt(p + 1, q, statusOf, repr, o);
    }
  }

  /** A task pending on every poll times out after all 120 polls. */
  lemma {:induction false} PollTimesOut(p: nat, statusOf: nat -> HttpResult, repr: Json -> string)
    requires p <= MaxPolls
    requires forall i :: p <= i < MaxPolls ==> statusOf(i).Received? && StatusStep(statusOf(i).body, repr) == Pending
    ensures PollFrom(p, statusOf, repr) == Polling(Settled(VideoFailed(Some(VideoFailurePrefix + TimeoutText))), MaxPolls - p)
    decreases MaxPolls - p
  {
    if p < MaxPolls {
      PollTimesOut(p + 1, statusOf, repr);
    } else {
      var t := TimeoutText;
      assert forall i :: 0 <= i < |t| ==> t[i] != '视';
      WrappedPlain(t);
    }
  }

  /** The outcome, the creation requests, the status polls and the waits. */
  datatype VideoRun = VideoRun(outcome: VideoOutcome, posts: nat, polls: nat, waits: seq<nat>)

  /** At most 120 polls for each task created. */
  function PollBudget(posts: nat): nat
  {
    MaxPolls * posts
  }

  /** The status responses of the video job created by attempt `attempt`. */
  function PollsOf(poll: (nat, nat) -> HttpResult, attempt: nat): nat -> HttpResult
  {
    (p: nat) => poll(attempt, p)
  }

  /** A run continued after `posts` requests, `polls` polls and `waits`. */
  function Resumed(posts: nat, polls: nat, waits: seq<nat>, r: VideoRun): VideoRun
  {
    VideoRun(r.outcome, posts + r.posts, polls + r.polls, waits + r.waits)
  }

  /** The error an HTTP status raises from the outer handler (a 429 when no retry is left). */
  function VideoStatusMessage(code: int, detail: string): string
  {
    if code == 429 then ConcurrencyLimit
    else if code == 400 then "参数错误: " + detail
    else if code == 401 then "密钥无效: " + detail
    else "HTTP " + IntToString(code) + ": " + detail
  }

  /** The outer handler of an HTTP status error: a 429 with an attempt left waits 60 seconds
    * and starts over with a new task; anything else raises. */
  function AfterStatus(code: int, detail: string, attempt: nat, m: int, polls: nat, rest: VideoRun): VideoRun
  {
    if code == 429 && attempt < m - 1 then VideoRun(rest.outcome, rest.posts + 1, rest.polls + polls, [RateLimitWait] + rest.waits)
    else VideoRun(VideoFailed(Some(VideoStatusMessage(code, detail))), 1, polls, [])
  }

  /** Attempts `attempt` .. `m - 1`, each creating a task and polling it. */
  function VideoFrom(attempt: nat, m: int, post: nat -> HttpResult, poll: (nat, nat) -> HttpResult, repr: Json -> string): (r: VideoRun)
    ensures r.outcome.NoVideo? <==> attempt >= m
    ensures r.posts <= if attempt < m then m - attempt else 0
    decreases m - attempt
  {
    if attempt >= m then VideoRun(NoVideo, 0, 0, [])
    else
      var rest := VideoFrom(attempt + 1, m, post, poll, repr);
      match post(attempt)
      case Status(code, detail) => AfterStatus(code, detail, attempt, m, 0, rest)
      case Broken(msg) => VideoRun(VideoFailed(Some(VideoWrapped(msg))), 1, 0, [])
      case Received(body) =>
        if !body.JObj? then VideoRun(VideoFailed(None), 1, 0, [])
        else
          var pr := PollFrom(0, PollsOf(poll, attempt), repr);
          match pr.end
          case Settled(o) => VideoRun(o, 1, pr.polls, [])
          case PollStatus(code, detail) => AfterStatus(code, detail, attempt, m, pr.polls, rest)
  }

  /** `generate_video`: the retry loop around task creation and polling. */
  method GenerateVideo(maxRetries: int, post: nat -> HttpResult, poll: (nat, nat) -> HttpResult, repr: Json -> string)
    returns (outcome: VideoOutcome, posts: nat, polls: nat, waits: seq<nat>)
    ensures VideoRun(outcome, posts, polls, waits) == VideoFrom(0, maxRetries, post, poll, repr)
  {
    ghost var total := VideoFrom(0, maxRetries, post, poll, repr);
    outcome, posts, polls, waits := NoVideo, 0, 0, [];
    var attempt: nat := 0;
    while attempt < maxRetries
      invariant posts == attempt && outcome == NoVideo
      invariant total == Resumed(posts, polls, waits, VideoFrom(attempt, maxRetries, post, poll, repr))
      decreases maxRetries - attempt
    {
      VideoFromStep(attempt, maxRetries, post, poll, repr);
      ghost var posts0, polls0, waits0 := posts, polls, waits;
      var res := post(attempt);
      posts := posts + 1;
      var code: int, detail: string, polled: nat := 0, "", 0;
      if res.Broken? {
        outcome := VideoFailed(Some(VideoWrapped(res.message)));
        break;
      } else if res.Status? {
        code, detail := res.code, res.detail;
      } else {
        if !res.body.JObj? {
          outcome := VideoFailed(None);
          break;
        }
        var end, n := PollTask(PollsOf(poll, attempt), repr);
        polls := polls + n;
        if end.Settled? {
          outcome := end.outcome;
          break;
        }
        code, detail, polled := end.code, end.detail, n;
      }
      if code == 429 && attempt < maxRetries - 1 {
        ResumedAfterRetry(posts0, polls0, waits0, polled, VideoFrom(attempt + 1, maxRetries, post, poll, repr));
        waits := waits + [RateLimitWait];
        attempt := attempt + 1;
      } else {
        outcome := VideoFailed(Some(VideoStatusMessage(code, detail)));
        break;
      }
    }
    assert waits + [] == waits;
  }

  /** Resuming a retried attempt is resuming the next attempt after one more request, the
    * attempt's polls and one more wait. */
  lemma ResumedAfterRetry(posts: nat, polls: nat, waits: seq<nat>, polled: nat, rest: VideoRun)
    ensures Resumed(posts, polls, waits, VideoRun(rest.outcome, rest.posts + 1, rest.polls + polled, [RateLimitWait] + rest.waits)) ==
      Resumed(posts + 1, polls + polled, waits + [RateLimitWait], rest)
  {
    assert waits + ([RateLimitWait] + rest.waits) == (waits + [RateLimitWait]) + rest.waits;
  }

  /** One attempt of `generate_video` by the reference definition. */
  lemma VideoFromStep(attempt: nat, m: int, post: nat -> HttpResult, poll: (nat, nat) -> HttpResult, repr: Json -> string)
    requires attempt < m
    ensures var here, rest := VideoFrom(attempt, m, post, poll, repr), VideoFrom(attempt + 1, m, post, poll, repr);
      var res := post(attempt);
      (res.Broken? ==> here == VideoRun(VideoFailed(Some(VideoWrapped(res.message))), 1, 0, [])) &&
      (res.Status? ==> here == AfterStatus(res.code, res.detail, attempt, m, 0, rest)) &&
      (res.Received? && !res.body.JObj? ==> here == VideoRun(VideoFailed(None), 1, 0, [])) &&
      (res.Received? && res.body.JObj? ==>
        var pr := PollFrom(0, PollsOf(poll, attempt), repr);
        (pr.end.Settled? ==> here == VideoRun(pr.end.outcome, 1, pr.polls, [])) &&
        (pr.end.PollStatus? ==> here == AfterStatus(pr.end.code, pr.end.detail, attempt, m, pr.polls, rest)))
  {
  }

  /** Every created task is polled at most 120 times, so a call polls at most
    * `120 * maxRetries` times. */
  lemma {:induction false} VideoPollsBounded(a: nat, m: int, post: nat -> HttpResult, poll: (nat, nat) -> HttpResult, repr: Json -> string)
    ensures var r := VideoFrom(a, m, post, poll, repr);
      r.polls <= PollBudget(r.posts)
    decreases m - a
  {
    if a < m {
      VideoPollsBounded(a + 1, m, post, poll, repr);
      var rest := VideoFrom(a + 1, m, post, poll, repr);
      assert PollBudget(rest.posts + 1) == PollBudget(rest.posts) + MaxPolls;
    }
  }

  /** Task creation rate-limited on every attempt: each attempt but the last waits 60 seconds,
    * nothing is polled, and the concurrency message is raised. */
  lemma {:induction false} VideoAllRateLimited(a: nat, m: int, post: nat -> HttpResult, poll: (nat, nat) -> HttpResult, repr: Json -> string)
    requires a < m
    requires forall i :: RateLimited(post(i))
    ensures VideoFrom(a, m, post, poll, repr) == VideoRun(VideoFailed(Some(ConcurrencyLimit)), m - a, 0, Repeat(RateLimitWait, m - 1 - a))
    decreases m - a
  {
    assert RateLimited(post(a));
    if a < m - 1 {
      VideoAllRateLimited(a + 1, m, post, poll, repr);
    }
  }

  /** A task that reports `SUCCESS` with a result list after pending polls gives the first
    * item's URL on the first attempt. */
  lemma VideoFirstResultUrl(m: int, post: nat -> HttpResult, poll: (nat, nat) -> HttpResult, repr: Json -> string,
                            q: nat, task: map<string, Json>, status: map<string, Json>, item: map<string, Json>, more: seq<Json>)
    requires 0 < m && q < MaxPolls
    requires post(0) == Received(JObj(task))
    requires forall i :: 0 <= i < q ==> poll(0, i).Received? && StatusStep(poll(0, i).body, repr) == Pending
    requires poll(0, q) == Received(JObj(status))
    requires FieldOr(status, "task_status", JNull) == JStr("SUCCESS")
    requires FieldOr(status, "video_result", JArr([])) == JArr([JObj(item)] + more)
    ensures VideoFrom(0, m, post, poll, repr) == VideoRun(VideoUrl(FieldOr(item, "url", JNull)), 1, q + 1, [])
  {
    var s := PollsOf(poll, 0);
    var o := VideoUrl(FieldOr(item, "url", JNull));
    assert ([JObj(item)] + more)[0] == JObj(item);
    assert StatusStep(JObj(status), repr) == Finished(o);
    PollSettlesAt(0, q, s, repr, o);
  }

  /** A task that reports `FAILED` with an error object after pending polls ends the call on
    * the first attempt with the wrapped failure message; it is not retried. */
  lemma VideoFailedAfterPolls(m: int, post: nat -> HttpResult, poll: (nat, nat) -> HttpResult, repr: Json -> string,
                              q: nat, task: map<string, Json>, status: map<string, Json>, error: map<string, Json>)
    requires 0 < m && q < MaxPolls
    requires post(0) == Received(JObj(task))
    requires forall i :: 0 <= i < q ==> poll(0, i).Received? && StatusStep(poll(0, i).body, repr) == Pending
    requires poll(0, q) == Received(JObj(status))
    requires FieldOr(status, "task_status", JNull) == JStr("FAILED")
    requires FieldOr(status, "error", JObj(map[])) == JObj(error)
    ensures VideoFrom(0, m, post, poll, repr) ==
      VideoRun(VideoFailed(Some(VideoWrapped(FailedText(error, repr)))), 1, q + 1, [])
  {
    var o := VideoFailed(Some(VideoWrapped(FailedText(error, repr))));
    assert StatusStep(JObj(status), repr) == Finished(o);
    PollSettlesAt(0, q, PollsOf(poll, 0), repr, o);
  }

  // ---------------------------------------------------------------- analyze_image, analyze_video

  const ImageMimeTypes := map[".jpg" := "image/jpeg", ".jpeg" := "image/jpeg", ".png" := "image/png", ".gif" := "image/gif", ".webp" := "image/webp"]
  const VideoMimeTypes := map[".mp4" := "video/mp4", ".mov" := "video/quicktime", ".avi" := "video/x-msvideo", ".mkv" := "video/x-matroska", ".webm" := "video/webm"]

  /** `table.get(os.path.splitext(path)[1].lower(), default)`. */
  function MimeType(table: map<string, string>, path: string, default: string): (r: string)
    ensures Lower(SplitExt(path)) in table ==> r == table[Lower(SplitExt(path))]
    ensures Lower(SplitExt(path)) !in table ==> r == default
  {
    var ext := Lower(SplitExt(path));
    if ext in table then table[ext] else default
  }

  function ImageMimeType(path: string): string
  {
    MimeType(ImageMimeTypes, path, "image/jpeg")
  }

  function VideoMimeType(path: string): string
  {
    MimeType(VideoMimeTypes, path, "video/mp4")
  }

  /** Only files served by the local backend are inlined. */
  predicate IsLocalUrl(url: string)
  {
    StartsWith(url, "http://localhost") || StartsWith(url, "http://127.0.0.1")
  }

  /** `f"data:{mime_type};base64,{data}"`. */
  function DataUrl(mime: string, data: string): (r: string)
    ensures StartsWith(r, "data:" + mime + ";base64,")
    ensures EndsWith(r, data)
  {
    var r := "data:" + mime + ";base64," + data;
    StartsWithAppend("data:" + mime + ";base64,", data);
    EndsWithAppend("data:" + mime + ";base64,", data);
    r
  }

  /** Extensions are matched case-insensitively; a name without extension gets the default. */
  lemma MimeExamples()
    ensures ImageMimeType("shot.PNG") == "image/png"
    ensures VideoMimeType("README") == "video/mp4"
  {
    UpperCaseExtension();
    NoExtension();
  }

  lemma UpperCaseExtension()
    ensures Lower(SplitExt("shot.PNG")) == ".png"
  {
    assert LastIndexOf("shot", '/') == -1 && "shot"[0] != '.';
    SplitExtOfNamed("shot", "PNG");
    assert "shot" + "." + "PNG" == "shot.PNG";
    assert Lower(".PNG") == ".png";
  }

  lemma NoExtension()
    ensures SplitExt("README") == ""
  {
    var s := "README";
    assert forall i :: 0 <= i < |s| ==> s[i] != '.';
    assert LastIndexOf(s, '.') == -1;
  }

  /** An extension outside a table gets that table's default. */
  lemma MimeDefaults(path: string)
    requires Lower(SplitExt(path)) !in ImageMimeTypes && Lower(SplitExt(path)) !in VideoMimeTypes
    ensures ImageMimeType(path) == "image/jpeg" && VideoMimeType(path) == "video/mp4"
  {
  }

  // ---------------------------------------------------------------- generate_storyboard

  const StoryboardParseError := "无法解析分镜结果"

  /** The service's storyboard: no fence stripping, only a decode error is caught (a model text
    * that is not a string makes `json.loads` raise), and the shape rule of the routes. */
  function ServiceStoryboard(response: map<string, Json>, parse: Parser): (r: Outcome<Json>)
    ensures ResponseText(response).None? <==> r.Failed?
    ensures ResponseText(response).Some? && parse(ResponseText(response).value).None? ==>
      r == Answered(JArr([JObj(map["error" := JStr(StoryboardParseError), "raw_content" := JStr(ResponseText(response).value)])]))
    ensures ResponseText(response).Some? && parse(ResponseText(response).value).Some? ==>
      r == Answered(StoryboardShape(parse(ResponseText(response).value).value))
  {
    match ResponseText(response)
    case None => Failed
    case Some(content) =>
      match parse(content)
      case None => Answered(JArr([JObj(map["error" := JStr(StoryboardParseError), "raw_content" := JStr(content)])]))
      case Some(v) => Answered(StoryboardShape(v))
  }

  /** The storyboard is a list unless the reply was an object whose "storyboard" member is not
    * one; an unparsable reply is one record carrying the raw text. */
  lemma ServiceStoryboardIsList(response: map<string, Json>, parse: Parser)
    requires ServiceStoryboard(response, parse).Answered?
    ensures var text := ResponseText(response).value;
      var v := parse(text);
      ServiceStoryboard(response, parse).body.JArr? <==>
        (v.None? || !(v.value.JObj? && "storyboard" in v.value.fields && !v.value.fields["storyboard"].JArr?))
  {
    var text := ResponseText(response).value;
    if parse(text).Some? {
      StoryboardShapeIsList(parse(text).value);
    }
  }
}
