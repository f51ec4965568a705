/**
  The content-generation helpers of the artisan toolkit (google_streamlit.py):
  the system-prompt table and the retry policy around the generation API.

  The HTTP layer is abstracted: the environment's answer to the n-th request
  is `outcomes[n]`, either a response (status code, the extracted text if the
  JSON carried one, the raw body) or a request exception. Sleeping is
  recorded, not performed: the policy returns the delays it would sleep.
 */
module GoogleStreamlit {

  import opened Optional

  // ---------------------------------------------------------------------
  // System prompts
  // ---------------------------------------------------------------------

  const BasePrompt: string :=
    "You are an expert branding and marketing assistant for local Indian artisans. " +
    "Your goal is to help them build a strong online presence by creating authentic, culturally rich, and appealing content. " +
    "The user will provide a description of their craft."

  const NameInstruction: string :=
    "Generate 5 creative and memorable business names based on the user's description. " +
    "The names should be easy to pronounce and reflect the heritage of the craft. " +
    "Provide a brief one-line explanation for each name suggestion. " +
    "Format the output as a numbered list."

  const StoryInstruction: string :=
    "Write a compelling \"About the Artisan\" story based on the user's description. " +
    "The story should be around 150-200 words. " +
    "Write in a warm, first-person narrative (from the artisan's perspective). " +
    "It should connect the craft to their personal journey, family heritage, and passion. " +
    "The tone should be authentic and heartfelt."

  const TaglineInstruction: string :=
    "Generate 5 short, catchy, and meaningful taglines for the artisan's brand based on their description. " +
    "The taglines should capture the essence of their craft and its value. " +
    "Format the output as a numbered list."

  /** The content types that have a prompt of their own. */
  const PromptKinds: set<string> := {"name", "story", "tagline"}

  /** A specialised prompt: the base prompt, a blank line, the instruction. */
  function Specialise(instruction: string): (p: string)
    ensures |p| == |BasePrompt| + 2 + |instruction|
    ensures p[..|BasePrompt| + 2] == BasePrompt + "\n\n"
    ensures p[|BasePrompt| + 2..] == instruction
  {
    BasePrompt + "\n\n" + instruction
  }

  /** The system prompt for a content type; unknown types get the base prompt. */
  function GetPrompt(contentType: string): (p: string)
    ensures contentType in PromptKinds ==>
      |p| > |BasePrompt| + 2 && p[..|BasePrompt| + 2] == BasePrompt + "\n\n"
    ensures contentType == "name" ==> p[|BasePrompt| + 2..] == NameInstruction
    ensures contentType == "story" ==> p[|BasePrompt| + 2..] == StoryInstruction
    ensures contentType == "tagline" ==> p[|BasePrompt| + 2..] == TaglineInstruction
    ensures contentType !in PromptKinds ==> p == BasePrompt
  {
    var prompts := map[
      "name" := Specialise(NameInstruction),
      "story" := Specialise(StoryInstruction),
      "tagline" := Specialise(TaglineInstruction)];
    if contentType in prompts then prompts[contentType] else BasePrompt
  }

  // ---------------------------------------------------------------------
  // Retry policy
  // ---------------------------------------------------------------------

  /** Requests made at most. */
  const Retries: nat := 3

  /** The first back-off delay, in seconds. */
  const InitialDelay: nat := 1

  const StatusOk: nat := 200
  const StatusTooManyRequests: nat := 429

  /** What one request produced. `content` is the text found under
      candidates[0].content.parts[0] of the JSON, if the response had it. */
  datatype Outcome =
    | Response(status: nat, content: Option<string>, body: string)
    | RequestFailed(reason: string)

  /** What the generator returns, by kind. */
  datatype Reply =
    | Generated(text: string)
    | ExtractFailed
    | StatusRejected(status: nat, body: string)
    | NetworkFailed(reason: string)
    | RetriesExhausted

  /** A run of the policy: its reply, the delays slept, the requests made. */
  datatype Trace = Trace(reply: Reply, sleeps: seq<nat>, attempts: nat)

  /** Rate limiting and server errors are retried. */
  predicate Retryable(status: nat) {
    status == StatusTooManyRequests || status >= 500
  }

  /** `t` preceded by one more sleep of `delay` seconds. */
  function AfterSleep(delay: nat, t: Trace): Trace {
    t.(sleeps := [delay] + t.sleeps)
  }

  /** The policy from request number `attempt` on, with the current delay. */
  function Run(outcomes: seq<Outcome>, attempt: nat, delay: nat): (t: Trace)
    requires attempt <= Retries <= |outcomes|
    ensures attempt <= t.attempts <= Retries
    ensures attempt < Retries ==> attempt < t.attempts
    decreases Retries - attempt
  {
    if attempt == Retries then Trace(RetriesExhausted, [], Retries)
    else
      match outcomes[attempt]
      case Response(status, content, body) =>
        if status == StatusOk then
          Trace(if content.Some? then Generated(content.value) else ExtractFailed, [], attempt + 1)
        else if Retryable(status) then
          AfterSleep(delay, Run(outcomes, attempt + 1, delay * 2))
        else
          Trace(StatusRejected(status, body), [], attempt + 1)
      case RequestFailed(reason) =>
        if attempt < Retries - 1 then AfterSleep(delay, Run(outcomes, attempt + 1, delay * 2))
        else Trace(NetworkFailed(reason), [], attempt + 1)
  }

  /** `n` delays starting at `first`, each twice the one before. */
  function Backoff(first: nat, n: nat): (ds: seq<nat>)
    ensures |ds| == n
    decreases n
  {
    if n == 0 then [] else [first] + Backoff(first * 2, n - 1)
  }

  /** An outcome that ends the run at request number `i`: any response that
      is not retried, or an exception on the last request. */
  predicate Final(o: Outcome, i: nat) {
    match o
    case Response(status, _, _) => !Retryable(status)
    case RequestFailed(_) => i == Retries - 1
  }

  /** The reply an ending outcome produces. */
  function FinalReply(o: Outcome): (r: Reply)
    ensures !r.RetriesExhausted?
  {
    match o
    case Response(status, content, body) =>
      if status == StatusOk then
        (if content.Some? then Generated(content.value) else ExtractFailed)
      else StatusRejected(status, body)
    case RequestFailed(reason) => NetworkFailed(reason)
  }

  /** From request `attempt` on, with no ending outcome, every remaining
      request is followed by a back-off sleep and the run gives up. */
  lemma {:induction false} RunExhaustedFrom(outcomes: seq<Outcome>, attempt: nat, delay: nat)
    requires attempt <= Retries <= |outcomes|
    requires forall i :: attempt <= i < Retries ==> !Final(outcomes[i], i)
    ensures Run(outcomes, attempt, delay) == Trace(RetriesExhausted, Backoff(delay, Retries - attempt), Retries)
    decreases Retries - attempt
  {
    if attempt < Retries {
      RunExhaustedFrom(outcomes, attempt + 1, delay * 2);
    }
  }

  /** From request `attempt` on, the first ending outcome (number `k`)
      decides the run: every request before it is followed by a back-off
      sleep, it produces the reply and nothing follows it. */
  lemma {:induction false} RunEndsAt(outcomes: seq<Outcome>, attempt: nat, delay: nat, k: nat)
    requires attempt <= k < Retries <= |outcomes|
    requires Final(outcomes[k], k)
    requires forall i :: attempt <= i < k ==> !Final(outcomes[i], i)
    ensures Run(outcomes, attempt, delay) == Trace(FinalReply(outcomes[k]), Backoff(delay, k - attempt), k + 1)
    decreases k - attempt
  {
    if attempt < k {
      RunEndsAt(outcomes, attempt + 1, delay * 2, k);
    }
  }

  /** The policy from the first request, characterised by its first ending
      outcome: outcome k ending the run gives its reply after k doubling
      sleeps and k + 1 requests; with none, the run gives up after sleeping
      1, 2 and 4 seconds. */
  lemma RunCharacterized(outcomes: seq<Outcome>)
    requires |outcomes| >= Retries
    ensures (forall i :: 0 <= i < Retries ==> !Final(outcomes[i], i)) ==>
      Run(outcomes, 0, InitialDelay) == Trace(RetriesExhausted, [1, 2, 4], Retries)
    ensures forall k :: 0 <= k < Retries && Final(outcomes[k], k) &&
                        (forall i :: 0 <= i < k ==> !Final(outcomes[i], i)) ==>
      Run(outcomes, 0, InitialDelay) == Trace(FinalReply(outcomes[k]), Backoff(InitialDelay, k), k + 1)
  {
    if forall i :: 0 <= i < Retries ==> !Final(outcomes[i], i) {
      RunExhaustedFrom(outcomes, 0, InitialDelay);
      assert Backoff(1, 3) == [1, 2, 4];
    }
    forall k | 0 <= k < Retries && Final(outcomes[k], k) && (forall i :: 0 <= i < k ==> !Final(outcomes[i], i))
      ensures Run(outcomes, 0, InitialDelay) == Trace(FinalReply(outcomes[k]), Backoff(InitialDelay, k), k + 1)
    {
      RunEndsAt(outcomes, 0, InitialDelay, k);
    }
  }

  /** The run gives up "after multiple retries" exactly when none of the three
      requests ends it: each is a retried status, or an exception before the
      last request. In particular three retried statuses give up. */
  lemma RetriesExhaustedIff(outcomes: seq<Outcome>)
    requires |outcomes| >= Retries
    ensures Run(outcomes, 0, InitialDelay).reply == RetriesExhausted <==>
      forall i :: 0 <= i < Retries ==> !Final(outcomes[i], i)
    ensures (forall i :: 0 <= i < Retries ==> outcomes[i].Response? && Retryable(outcomes[i].status)) ==>
      Run(outcomes, 0, InitialDelay) == Trace(RetriesExhausted, [1, 2, 4], Retries)
  {
    RunCharacterized(outcomes);
    if Final(outcomes[0], 0) {
      assert Run(outcomes, 0, InitialDelay).reply == FinalReply(outcomes[0]);
    } else if Final(outcomes[1], 1) {
      assert Run(outcomes, 0, InitialDelay).reply == FinalReply(outcomes[1]);
    } else if Final(outcomes[2], 2) {
      assert Run(outcomes, 0, InitialDelay).reply == FinalReply(outcomes[2]);
    }
  }

  /** The back-off delays start at `first` and double each time. */
  lemma {:induction false} BackoffDoubles(first: nat, n: nat)
    ensures n > 0 ==> Backoff(first, n)[0] == first
    ensures forall i :: 0 <= i < n - 1 ==> Backoff(first, n)[i + 1] == 2 * Backoff(first, n)[i]
    decreases n
  {
    if n > 0 {
      BackoffDoubles(first * 2, n - 1);
      var ds := Backoff(first, n);
      assert ds[1..] == Backoff(first * 2, n - 1);
      forall i | 0 <= i < n - 1 ensures ds[i + 1] == 2 * ds[i] {
        if i > 0 {
          assert ds[i + 1] == ds[1..][i] && ds[i] == ds[1..][i - 1];
        }
      }
    }
  }

  /** The request loop of the generator, with the HTTP layer abstracted into
      `outcomes` and each sleep recorded in `sleeps`. */
  method GenerateContentFromApi(outcomes: seq<Outcome>) returns (reply: Reply, sleeps: seq<nat>, attempts: nat)
    requires |outcomes| >= Retries
    ensures Trace(reply, sleeps, attempts) == Run(outcomes, 0, InitialDelay)
    ensures 1 <= attempts <= Retries
  {
    var delay: nat := InitialDelay;
    sleeps := [];
    for attempt := 0 to Retries
      invariant AfterSleeps(sleeps, Run(outcomes, attempt, delay)) == Run(outcomes, 0, InitialDelay)
    {
      match outcomes[attempt]
      case Response(status, content, body) =>
        if status == StatusOk {
          if content.Some? {
            reply := Generated(content.value);
          } else {
            reply := ExtractFailed;
          }
          attempts := attempt + 1;
          return;
        } else if status == StatusTooManyRequests || status >= 500 {
          AfterSleepsStep(sleeps, delay, Run(outcomes, attempt + 1, delay * 2));
          sleeps := sleeps + [delay];
          delay := delay * 2;
        } else {
          reply := StatusRejected(status, body);
          attempts := attempt + 1;
          return;
        }
      case RequestFailed(reason) =>
        if attempt < Retries - 1 {
          AfterSleepsStep(sleeps, delay, Run(outcomes, attempt + 1, delay * 2));
          sleeps := sleeps + [delay];
          delay := delay * 2;
        } else {
          reply := NetworkFailed(reason);
          attempts := attempt + 1;
          return;
        }
    }
    reply := RetriesExhausted;
    attempts := Retries;
  }

  /** `t` preceded by the sleeps already taken. */
  function AfterSleeps(taken: seq<nat>, t: Trace): Trace {
    t.(sleeps := taken + t.sleeps)
  }

  lemma AfterSleepsStep(taken: seq<nat>, delay: nat, t: Trace)
    ensures AfterSleeps(taken, AfterSleep(delay, t)) == AfterSleeps(taken + [delay], t)
  {
    assert taken + ([delay] + t.sleeps) == (taken + [delay]) + t.sleeps;
  }

  // ---------------------------------------------------------------------
  // Reply texts
  // ---------------------------------------------------------------------

  /** The decimal digits of `n`, as Python formats an int. */
  function Decimal(n: nat): (s: string)
    ensures |s| >= 1
    ensures forall i :: 0 <= i < |s| ==> '0' <= s[i] <= '9'
    ensures n > 0 ==> s[0] != '0'
  {
    if n < 10 then [DigitChar(n)] else Decimal(n / 10) + [DigitChar(n % 10)]
  }

  function DigitChar(d: nat): (c: char)
    requires d < 10
    ensures '0' <= c <= '9' && c as int - '0' as int == d
  {
    ('0' as int + d) as char
  }

  /** The number a string of decimal digits denotes. */
  function DecimalValue(s: string): nat
    requires forall i :: 0 <= i < |s| ==> '0' <= s[i] <= '9'
  {
    if |s| == 0 then 0 else 10 * DecimalValue(s[..|s| - 1]) + (s[|s| - 1] as int - '0' as int)
  }

  /** The status code in an error reply reads back as the code. */
  lemma {:induction false} DecimalRoundTrip(n: nat)
    ensures DecimalValue(Decimal(n)) == n
  {
    if n >= 10 {
      DecimalRoundTrip(n / 10);
      var s := Decimal(n);
      assert s[..|s| - 1] == Decimal(n / 10);
    }
  }

  const ErrorPrefix: string := "Error: "

  /** The string the generator returns for a reply. */
  function ReplyText(r: Reply): (text: string)
    ensures r.Generated? ==> text == r.text
    ensures !r.Generated? ==> |text| > |ErrorPrefix| && text[..|ErrorPrefix|] == ErrorPrefix
  {
    match r
    case Generated(text) => text
    case ExtractFailed => ErrorPrefix + "Could not extract content from the API response."
    case StatusRejected(status, body) => ErrorPrefix + "API responded with status " + Decimal(status) + "\n" + body
    case NetworkFailed(reason) => ErrorPrefix + "A network error occurred: " + reason
    case RetriesExhausted => ErrorPrefix + "The request failed after multiple retries."
  }
}
