/** One chat round: a provider adapter inside a retry loop that never repeats streamed output. */
module Chat {
  import opened Text
  import opened Message
  import opened Sse
  import opened Transcript
  import OpenAi
  import Anthropic

  /** `Retryable` is an error marked as worth retrying; every other error is plain. */
  datatype Failure = Retryable(message: string) | Plain(message: string)

  predicate IsRetryable(e: Failure) {
    e.Retryable? || !HasPrefix(e.message, "LLM HTTP 4")
  }

  function Decimal(n: nat): string {
    if n < 10 then [('0' as int + n) as char] else Decimal(n / 10) + [('0' as int + n % 10) as char]
  }

  /** `httpError`; `excerpt` is the start of the error body. */
  function HttpError(status: nat, excerpt: string): Failure {
    var message := "LLM HTTP " + Decimal(status) + ": " + excerpt;
    if status == 429 || status >= 500 then Retryable(message) else Plain(message)
  }

  lemma {:induction false} HundredsDigit(n: nat)
    requires 100 <= n <= 999
    ensures Decimal(n) != "" && Decimal(n)[0] == ('0' as int + n / 100) as char
  {
    assert Decimal(n / 10) == Decimal(n / 10 / 10) + [('0' as int + n / 10 % 10) as char];
  }

  lemma {:induction false} HasDigits(n: nat)
    ensures Decimal(n) != ""
  {
  }

  /**
   * Which answers are retried. Not just 429 and 5xx, as the comment at `httpError` has it: since only "LLM HTTP 4" is
   * recognized as final, every status is retried that is not written with a leading 4, and none below 500 that is,
   * save 429. For a status of three digits this means everything outside 4xx; a status of 42 is final.
   */
  lemma {:induction false} RetriedStatuses(status: nat, excerpt: string)
    ensures Decimal(status) != ""
    ensures IsRetryable(HttpError(status, excerpt)) <==>
            status == 429 || status >= 500 || Decimal(status)[0] != '4'
    ensures 100 <= status <= 999 ==>
      (IsRetryable(HttpError(status, excerpt)) <==> status == 429 || !(400 <= status <= 499))
  {
    hide Decimal;
    HasDigits(status);
    var d, head := Decimal(status), "LLM HTTP ";
    var message := head + d + ": " + excerpt;
    assert message[9] == d[0];
    if d[0] == '4' {
      assert message[..10] == "LLM HTTP 4";
    }
    if 100 <= status <= 999 {
      HundredsDigit(status);
    }
  }

  datatype Codec = OpenAiCodec(chunks: OpenAi.Decoder) | AnthropicCodec(events: Anthropic.Decoder)

  /** What the network makes of one request: no answer, or a status with its body. */
  datatype Response = NoAnswer(error: string) | Answer(status: nat, body: Body)

  datatype Tried = Tried(result: Result<ChatResult, Failure>, emitted: seq<string>)

  function Failed<T>(r: Result<T, string>): Result<T, Failure> {
    match r case Ok(v) => Ok(v) case Err(e) => Err(Plain(e))
  }

  /** `Model.Chat` of either adapter. */
  function Attempt(codec: Codec, response: Response): Tried {
    match response
    case NoAnswer(e) => Tried(Err(Plain(e)), [])
    case Answer(status, body) =>
      if status < 200 || status >= 300 then Tried(Err(HttpError(status, body.text)), [])
      else match codec {
        case OpenAiCodec(decode) =>
          var s := OpenAi.Stream(decode, body);
          Tried(Failed(s.result), s.emitted)
        case AnthropicCodec(decode) =>
          var s := Anthropic.Stream(decode, body);
          Tried(Failed(s.result), s.emitted)
      }
  }

  /** Within one attempt, what is emitted is what a successful result contains. */
  lemma {:induction false} AttemptEmitsItsContent(codec: Codec, response: Response)
    ensures var t := Attempt(codec, response);
      t.result.Ok? ==> Concat(t.emitted) == t.result.value.message.content
  {
    if response.Answer? {
      match codec
      case OpenAiCodec(decode) => OpenAi.StreamSound(decode, response.body);
      case AnthropicCodec(decode) => Anthropic.StreamSound(decode, response.body);
    }
  }

  // ----- Retrying -----

  /** One turn of the retry loop as the outside world plays it: what the context says, and what the request does. */
  datatype Trial = Trial(doneBefore: Option<string>, tried: Tried, doneInWait: Option<string>)

  const LLM_MAX_RETRIES: nat := 2
  /** In milliseconds. */
  const LLM_RETRY_BASE_DELAY: nat := 1000

  function Pow2(k: nat): nat {
    if k == 0 then 1 else 2 * Pow2(k - 1)
  }

  function Backoff(k: nat): nat {
    LLM_RETRY_BASE_DELAY * Pow2(k)
  }

  /** `delivered` has an entry for each attempt made; `waited` one for each back-off requested. */
  datatype Retried = Retried(result: Result<ChatResult, Failure>, delivered: seq<seq<string>>, waited: seq<nat>)

  function Retry(trials: nat -> Trial, n: nat, k: nat): Retried
    requires k <= n
    decreases n - k
  {
    var t := trials(k);
    if t.doneBefore.Some? then Retried(Err(Plain(t.doneBefore.value)), [], [])
    else if t.tried.result.Ok? then Retried(t.tried.result, [t.tried.emitted], [])
    else if t.tried.emitted != [] || !IsRetryable(t.tried.result.error) || k == n then
      Retried(t.tried.result, [t.tried.emitted], [])
    else if t.doneInWait.Some? then Retried(Err(Plain(t.doneInWait.value)), [t.tried.emitted], [Backoff(k)])
    else
      var rest := Retry(trials, n, k + 1);
      Retried(rest.result, [t.tried.emitted] + rest.delivered, [Backoff(k)] + rest.waited)
  }

  /** The account of a loop that delivered and waited so much before it came to `rest`. */
  function After(delivered: seq<seq<string>>, waited: seq<nat>, rest: Retried): Retried {
    Retried(rest.result, delivered + rest.delivered, waited + rest.waited)
  }

  predicate Ends(t: Trial, n: nat, k: nat) {
    t.tried.result.Ok? || t.tried.emitted != [] || !IsRetryable(t.tried.result.error) || k == n
  }

  lemma {:induction false} OneTurn(trials: nat -> Trial, n: nat, k: nat, delivered: seq<seq<string>>, waited: seq<nat>)
    requires k <= n
    ensures var t := trials(k);
      After(delivered, waited, Retry(trials, n, k)) ==
      if t.doneBefore.Some? then Retried(Err(Plain(t.doneBefore.value)), delivered, waited)
      else if Ends(t, n, k) then Retried(t.tried.result, delivered + [t.tried.emitted], waited)
      else if t.doneInWait.Some? then
        Retried(Err(Plain(t.doneInWait.value)), delivered + [t.tried.emitted], waited + [Backoff(k)])
      else After(delivered + [t.tried.emitted], waited + [Backoff(k)], Retry(trials, n, k + 1))
  {
    hide IsRetryable, Backoff;
    var t := trials(k);
    if t.doneBefore.None? && !Ends(t, n, k) && t.doneInWait.None? {
      var rest := Retry(trials, n, k + 1);
      assert delivered + ([t.tried.emitted] + rest.delivered) == delivered + [t.tried.emitted] + rest.delivered;
      assert waited + ([Backoff(k)] + rest.waited) == waited + [Backoff(k)] + rest.waited;
    }
  }

  /** `withRetry`, for any number of retries; the return after the loop is unreachable. */
  method WithRetry(trials: nat -> Trial, n: nat) returns (r: Retried)
    ensures r == Retry(trials, n, 0)
  {
    var delivered: seq<seq<string>>, waited: seq<nat> := [], [];
    r := Retried(Err(Plain("")), [], []);
    assert After(delivered, waited, Retry(trials, n, 0)) == Retry(trials, n, 0);
    var attempt := 0;
    while attempt <= n
      invariant attempt <= n
      invariant Retry(trials, n, 0) == After(delivered, waited, Retry(trials, n, attempt))
      decreases n + 1 - attempt
    {
      hide Retry, After, IsRetryable, Backoff;
      OneTurn(trials, n, attempt, delivered, waited);
      var t := trials(attempt);
      if t.doneBefore.Some? {
        return Retried(Err(Plain(t.doneBefore.value)), delivered, waited);
      }
      var started := t.tried.emitted != [];
      delivered := delivered + [t.tried.emitted];
      if t.tried.result.Ok? {
        return Retried(t.tried.result, delivered, waited);
      }
      if started || !IsRetryable(t.tried.result.error) || attempt == n {
        return Retried(t.tried.result, delivered, waited);
      }
      waited := waited + [Backoff(attempt)];
      if t.doneInWait.Some? {
        return Retried(Err(Plain(t.doneInWait.value)), delivered, waited);
      }
      attempt := attempt + 1;
    }
    assert false;
  }

  function Total(waits: seq<nat>): nat {
    if waits == [] then 0 else waits[0] + Total(waits[1..])
  }

  function Flat(parts: seq<seq<string>>): seq<string> {
    if parts == [] then [] else parts[0] + Flat(parts[1..])
  }

  /** The loop goes on after this turn: a transient failure before the first delta, and time to wait it out. */
  predicate GoesOn(t: Trial) {
    && t.doneBefore.None? && t.doneInWait.None?
    && t.tried.result.Err? && IsRetryable(t.tried.result.error) && t.tried.emitted == []
  }

  predicate Ran(t: Trial, deltas: seq<string>) {
    t.doneBefore.None? && deltas == t.tried.emitted
  }

  /** The attempts of a retry loop entered at turn `k`. */
  predicate LawfulAttempts(trials: nat -> Trial, n: nat, k: nat, r: Retried) {
    var m := |r.delivered|;
    && k + m <= n + 1
    && (forall j :: k <= j < k + m ==> Ran(trials(j), r.delivered[j - k]))
    && (forall j :: k <= j < k + m - 1 ==> GoesOn(trials(j)))
    && m - 1 <= |r.waited| <= m
  }

  /** How it came out: the last attempt's own result, or the context's error. */
  predicate LawfulResult(trials: nat -> Trial, n: nat, k: nat, r: Retried) {
    var m := |r.delivered|;
    if r.result.Ok? then m > 0 && r.result == trials(k + m - 1).tried.result
    else
      || (k + m <= n && trials(k + m).doneBefore == Some(r.result.error.message))
      || (m > 0 && r.result == trials(k + m - 1).tried.result && (k + m == n + 1 || !GoesOn(trials(k + m - 1))))
      || (m > 0 && trials(k + m - 1).doneInWait == Some(r.result.error.message))
  }

  lemma {:induction false} OneMoreAttempt(trials: nat -> Trial, n: nat, k: nat, rest: Retried, r: Retried)
    requires LawfulAttempts(trials, n, k + 1, rest) && GoesOn(trials(k))
    requires r.delivered == [trials(k).tried.emitted] + rest.delivered && |r.waited| == 1 + |rest.waited|
    ensures LawfulAttempts(trials, n, k, r)
  {
    hide IsRetryable;
    forall j | k <= j < k + |r.delivered| ensures Ran(trials(j), r.delivered[j - k]) {
      if j > k {
        assert r.delivered[j - k] == rest.delivered[j - k - 1];
      }
    }
  }

  lemma {:induction false} AttemptsAreLawful(trials: nat -> Trial, n: nat, k: nat)
    requires k <= n
    ensures LawfulAttempts(trials, n, k, Retry(trials, n, k))
    decreases n - k
  {
    hide IsRetryable, Backoff;
    if GoesOn(trials(k)) && k < n {
      AttemptsAreLawful(trials, n, k + 1);
      OneMoreAttempt(trials, n, k, Retry(trials, n, k + 1), Retry(trials, n, k));
    }
  }

  lemma {:induction false} ResultIsLawful(trials: nat -> Trial, n: nat, k: nat)
    requires k <= n
    ensures LawfulResult(trials, n, k, Retry(trials, n, k))
    decreases n - k
  {
    hide IsRetryable, Backoff;
    if GoesOn(trials(k)) && k < n {
      ResultIsLawful(trials, n, k + 1);
    }
  }

  lemma {:induction false} BackoffTotal(trials: nat -> Trial, n: nat, k: nat)
    requires k <= n
    ensures var w := Retry(trials, n, k).waited;
      Total(w) == LLM_RETRY_BASE_DELAY * (Pow2(k + |w|) - Pow2(k))
    decreases n - k
  {
    hide IsRetryable;
    var t, w := trials(k), Retry(trials, n, k).waited;
    if w != [] {
      assert Pow2(k + 1) == 2 * Pow2(k);
      if |w| == 1 && t.doneInWait.Some? {
        assert w[1..] == [];
      } else {
        BackoffTotal(trials, n, k + 1);
        assert w[1..] == Retry(trials, n, k + 1).waited;
      }
    }
  }

  lemma {:induction false} WaitsAtMost(trials: nat -> Trial, n: nat, k: nat)
    requires k <= n
    ensures k + |Retry(trials, n, k).waited| <= n
    decreases n - k
  {
    if k < n {
      WaitsAtMost(trials, n, k + 1);
    }
  }

  /**
   * Retry bound, for any limit `n`: at most n+1 attempts; every attempt but the last failed retryably with nothing
   * emitted; none started once the context check saw it done; after k back-offs base*(2^k - 1) was asked for; and
   * the outcome is that of the last attempt or the context's.
   */
  lemma {:induction false} RetryBound(trials: nat -> Trial, n: nat)
    ensures var r := Retry(trials, n, 0); var m := |r.delivered|;
      && m <= n + 1
      && (forall j :: 0 <= j < m - 1 ==> GoesOn(trials(j)))
      && (forall j: nat :: j < m ==> trials(j).doneBefore.None?)
      && m - 1 <= |r.waited| <= n
      && Total(r.waited) == LLM_RETRY_BASE_DELAY * (Pow2(|r.waited|) - 1)
      && LawfulResult(trials, n, 0, r)
  {
    hide IsRetryable, Retry, LawfulResult;
    AttemptsAreLawful(trials, n, 0);
    ResultIsLawful(trials, n, 0);
    BackoffTotal(trials, n, 0);
    WaitsAtMost(trials, n, 0);
    var r := Retry(trials, n, 0);
    forall j: nat | j < |r.delivered| ensures trials(j).doneBefore.None? {
      assert Ran(trials(j), r.delivered[j - 0]);
    }
  }

  lemma {:induction false} OnlyLastCounts(parts: seq<seq<string>>)
    requires parts != [] && forall j :: 0 <= j < |parts| - 1 ==> parts[j] == []
    ensures Flat(parts) == parts[|parts| - 1]
  {
    if |parts| > 1 {
      OnlyLastCounts(parts[1..]);
    }
  }

  // ----- A chat round -----

  /** One turn before the provider adapter has looked at the answer. */
  datatype Turn = Turn(doneBefore: Option<string>, response: Response, doneInWait: Option<string>)

  function Trials(codec: Codec, turns: nat -> Turn): nat -> Trial {
    (k: nat) => Trial(turns(k).doneBefore, Attempt(codec, turns(k).response), turns(k).doneInWait)
  }

  datatype Config = Config(apiKey: string, model: string, codec: Codec)

  const NO_API_KEY := "LLM API key is not configured"

  function WithModel(cfg: Config, r: ChatResult): ChatResult {
    if r.model == "" then r.(model := cfg.model) else r
  }

  /** `Client.Chat`. */
  function ChatRound(cfg: Config, turns: nat -> Turn): Retried {
    if cfg.apiKey == "" then Retried(Err(Plain(NO_API_KEY)), [], [])
    else
      var r := Retry(Trials(cfg.codec, turns), LLM_MAX_RETRIES, 0);
      if r.result.Ok? then r.(result := Ok(WithModel(cfg, r.result.value))) else r
  }

  method ChatOnce(cfg: Config, turns: nat -> Turn) returns (r: Retried)
    ensures r == ChatRound(cfg, turns)
  {
    if cfg.apiKey == "" {
      return Retried(Err(Plain(NO_API_KEY)), [], []);
    }
    r := WithRetry(Trials(cfg.codec, turns), LLM_MAX_RETRIES);
    if r.result.Err? {
      return r;
    }
    var round := r.result.value;
    if round.model == "" {
      round := round.(model := cfg.model);
    }
    return r.(result := Ok(round));
  }

  /**
   * Exactly-once streaming, end to end: for either provider and whatever the network does on each turn, a
   * successful round has delivered its content exactly once over all its attempts, and a failed one has
   * delivered something on its last attempt only.
   */
  lemma {:induction false} ExactlyOnceStreaming(cfg: Config, turns: nat -> Turn)
    ensures var r := ChatRound(cfg, turns);
      && (r.result.Ok? ==> Concat(Flat(r.delivered)) == r.result.value.message.content)
      && (forall j :: 0 <= j < |r.delivered| - 1 ==> r.delivered[j] == [])
      && |r.delivered| <= 3
  {
    hide IsRetryable, Attempt, Retry;
    if cfg.apiKey != "" {
      var trials := Trials(cfg.codec, turns);
      var r := Retry(trials, LLM_MAX_RETRIES, 0);
      AttemptsAreLawful(trials, LLM_MAX_RETRIES, 0);
      ResultIsLawful(trials, LLM_MAX_RETRIES, 0);
      forall j | 0 <= j < |r.delivered| - 1 ensures r.delivered[j] == [] {
        assert GoesOn(trials(j)) && Ran(trials(j), r.delivered[j - 0]);
      }
      if r.delivered != [] {
        OnlyLastCounts(r.delivered);
        var last := |r.delivered| - 1;
        assert Ran(trials(last), r.delivered[last - 0]);
        AttemptEmitsItsContent(cfg.codec, turns(last).response);
      }
    }
  }

  // ----- What adapters return -----

  lemma {:induction false} OpenAiCallsAreFunctions(f: OpenAi.Fold, order: seq<int>, k: nat)
    requires forall j :: 0 <= j < |order| ==> order[j] in f.calls
    requires k < |OpenAi.CallsInOrder(f, order)|
    ensures OpenAi.CallsInOrder(f, order)[k].kind == "function"
  {
    var front := OpenAi.CallsInOrder(f, order[..|order| - 1]);
    if k < |front| {
      OpenAiCallsAreFunctions(f, order[..|order| - 1], k);
    }
  }

  lemma {:induction false} AnthropicCallsAreFunctions(f: Anthropic.Fold, order: seq<int>, k: nat)
    requires forall j :: 0 <= j < |order| ==> order[j] in f.blocks
    requires k < |Anthropic.CallsInOrder(f, order)|
    ensures Anthropic.CallsInOrder(f, order)[k].kind == "function"
  {
    var front := Anthropic.CallsInOrder(f, order[..|order| - 1]);
    if k < |front| {
      AnthropicCallsAreFunctions(f, order[..|order| - 1], k);
    }
  }

  lemma {:induction false} AttemptIsRegular(codec: Codec, response: Response)
    ensures var t := Attempt(codec, response);
      t.result.Ok? ==> FromAdapter(t.result.value.message)
  {
    var t := Attempt(codec, response);
    if t.result.Ok? {
      var calls := t.result.value.message.toolCalls;
      forall k | 0 <= k < |calls| ensures calls[k].kind == "function" {
        match codec
        case OpenAiCodec(decode) =>
          OpenAi.StreamSound(decode, response.body);
          var f := Scan(response.body, OpenAi.EMPTY, OpenAi.OnData(decode)).state;
          assert forall j :: 0 <= j < |f.order| ==> f.order[j] in Elements(f.order);
          OpenAiCallsAreFunctions(f, f.order, k);
        case AnthropicCodec(decode) =>
          Anthropic.StreamSound(decode, response.body);
          var f := Scan(response.body, Anthropic.EMPTY, Anthropic.OnData(decode)).state;
          assert forall j :: 0 <= j < |f.order| ==> f.order[j] in Elements(f.order);
          AnthropicCallsAreFunctions(f, f.order, k);
      }
    }
  }

  /** A successful round yields an assistant message with nothing but content and function calls. */
  lemma {:induction false} RoundIsRegular(cfg: Config, turns: nat -> Turn)
    ensures var r := ChatRound(cfg, turns);
      r.result.Ok? ==> FromAdapter(r.result.value.message)
  {
    hide Attempt, Retry, IsRetryable, FromAdapter;
    if cfg.apiKey != "" {
      var r := Retry(Trials(cfg.codec, turns), LLM_MAX_RETRIES, 0);
      ResultIsLawful(Trials(cfg.codec, turns), LLM_MAX_RETRIES, 0);
      if r.result.Ok? {
        AttemptIsRegular(cfg.codec, turns(0 + |r.delivered| - 1).response);
      }
    }
  }

  // ----- A round, exactly -----

  /** What the body of a 2xx answer means to either adapter, and the deltas it emits. */
  function Read(codec: Codec, body: Body): (r: (Result<ChatResult, string>, seq<string>)) {
    match codec
    case OpenAiCodec(decode) => (OpenAi.Stream(decode, body).result, OpenAi.Stream(decode, body).emitted)
    case AnthropicCodec(decode) => (Anthropic.Stream(decode, body).result, Anthropic.Stream(decode, body).emitted)
  }

  predicate Accepted(response: Response) {
    response.Answer? && 200 <= response.status <= 299
  }

  /** Why a request failed, if it did: no answer, a status outside 2xx, or a body that ended badly. */
  function FailureOf(codec: Codec, response: Response): Option<string> {
    if response.NoAnswer? then Some(response.error)
    else if !Accepted(response) then
      Some("LLM HTTP " + Decimal(response.status) + ": " + response.body.text)
    else if Read(codec, response.body).0.Ok? then None
    else Some(Read(codec, response.body).0.error)
  }

  function DeltasOf(codec: Codec, response: Response): seq<string> {
    if Accepted(response) then Read(codec, response.body).1 else []
  }

  /**
   * A failure that is worth another attempt. A status outside 2xx is unless it is written with a leading 4, save 429;
   * every other failure is unless its text reads like such a status or something has been emitted.
   */
  predicate Transient(codec: Codec, response: Response) {
    && FailureOf(codec, response).Some? && DeltasOf(codec, response) == []
    && if response.Answer? && !Accepted(response) then
         response.status == 429 || response.status >= 500 || !HasPrefix(Decimal(response.status), "4")
       else !HasPrefix(FailureOf(codec, response).value, "LLM HTTP 4")
  }

  predicate Passed(codec: Codec, t: Turn) {
    t.doneBefore.None? && Transient(codec, t.response) && t.doneInWait.None?
  }

  /** Turn `j` gets to send its request: every turn before failed transiently, and the context was not done. */
  predicate Reached(codec: Codec, turns: nat -> Turn, j: nat) {
    j <= 2 && turns(j).doneBefore.None? && forall i: nat :: i < j ==> Passed(codec, turns(i))
  }

  lemma {:induction false} AttemptExactly(codec: Codec, response: Response)
    ensures var t := Attempt(codec, response);
      && t.emitted == DeltasOf(codec, response)
      && (t.result.Ok? <==> FailureOf(codec, response).None?)
      && (t.result.Ok? ==> Accepted(response) && t.result.value == Read(codec, response.body).0.value)
      && (t.result.Err? ==> t.result.error.message == FailureOf(codec, response).value)
      && (t.result.Err? && t.emitted == [] ==> (IsRetryable(t.result.error) <==> Transient(codec, response)))
  {
    hide OpenAi.Stream, Anthropic.Stream, Decimal;
    if response.Answer? && !Accepted(response) {
      RetriedStatuses(response.status, response.body.text);
      hide IsRetryable;
    }
  }

  lemma {:induction false} TransientIsSilent(codec: Codec, response: Response)
    ensures Transient(codec, response) ==> DeltasOf(codec, response) == [] && FailureOf(codec, response).Some?
  {
  }

  /** One turn of the retry loop of a round, in the terms above. */
  lemma {:induction false} TurnExactly(codec: Codec, turns: nat -> Turn, k: nat)
    requires k <= 2
    ensures var r, t := Retry(Trials(codec, turns), 2, k), turns(k);
      var failure, deltas := FailureOf(codec, t.response), DeltasOf(codec, t.response);
      if t.doneBefore.Some? then r == Retried(Err(Plain(t.doneBefore.value)), [], [])
      else if failure.None? then
        Accepted(t.response) && r == Retried(Ok(Read(codec, t.response.body).0.value), [deltas], [])
      else if !Transient(codec, t.response) || k == 2 then
        r.result.Err? && r.result.error.message == failure.value && r.delivered == [deltas] && r.waited == []
      else if t.doneInWait.Some? then
        r == Retried(Err(Plain(t.doneInWait.value)), [deltas], [1000 * Pow2(k)])
      else
        var rest := Retry(Trials(codec, turns), 2, k + 1);
        r == Retried(rest.result, [deltas] + rest.delivered, [1000 * Pow2(k)] + rest.waited)
  {
    hide Attempt, Transient, FailureOf, DeltasOf, Read, IsRetryable, Accepted, Pow2;
    AttemptExactly(codec, turns(k).response);
    assert Transient(codec, turns(k).response) ==> DeltasOf(codec, turns(k).response) == [] by {
      TransientIsSilent(codec, turns(k).response);
    }
  }

  lemma {:induction false} ReachedStep(codec: Codec, turns: nat -> Turn)
    ensures Reached(codec, turns, 0) <==> turns(0).doneBefore.None?
    ensures Reached(codec, turns, 1) <==> Passed(codec, turns(0)) && turns(1).doneBefore.None?
    ensures Reached(codec, turns, 2) <==>
            Passed(codec, turns(0)) && Passed(codec, turns(1)) && turns(2).doneBefore.None?
    ensures forall j :: j > 2 ==> !Reached(codec, turns, j)
  {
    hide Transient;
  }

  /** How a round that made `m` attempts came out. */
  predicate Outcome(cfg: Config, turns: nat -> Turn, m: nat, result: Result<ChatResult, Failure>) {
    if m == 0 then turns(0).doneBefore.Some? && result == Err(Plain(turns(0).doneBefore.value))
    else
      var last := turns(m - 1);
      match FailureOf(cfg.codec, last.response)
      case None =>
        && Accepted(last.response) && result.Ok?
        && var v := Read(cfg.codec, last.response.body).0.value;
           result.value == ChatResult(v.message, v.usage, if v.model == "" then cfg.model else v.model)
      case Some(e) =>
        && result.Err?
        && if m == 3 || !Transient(cfg.codec, last.response) then result.error.message == e
           else if last.doneInWait.Some? then result.error.message == last.doneInWait.value
           else turns(m).doneBefore == Some(result.error.message)
  }

  /**
   * A round in full, for either provider and whatever the network does. Attempts are made exactly on the turns that
   * are reached: at most three, each after transient failures only, and none once the context is done. Each delivers
   * the deltas of a 2xx body and nothing else; 1 s and 2 s are waited for exactly after a transient failure that
   * leaves an attempt. The round succeeds exactly when its last attempt was answered 2xx with a body that ends well,
   * with what that body means; otherwise the error is the last attempt's or the context's.
   */
  lemma {:induction false} RoundExactly(cfg: Config, turns: nat -> Turn)
    ensures cfg.apiKey == "" ==>
      ChatRound(cfg, turns) == Retried(Err(Plain("LLM API key is not configured")), [], [])
    ensures cfg.apiKey != "" ==>
      var r := ChatRound(cfg, turns); var m := |r.delivered|;
      && (forall j: nat :: j < m <==> Reached(cfg.codec, turns, j))
      && (forall j: nat :: j < m ==> r.delivered[j] == DeltasOf(cfg.codec, turns(j).response))
      && r.waited <= [1000, 2000]
      && (forall j: nat :: j < |r.waited| <==>
            j < 2 && Reached(cfg.codec, turns, j) && Transient(cfg.codec, turns(j).response))
      && Outcome(cfg, turns, m, r.result)
  {
    hide Attempt, Transient, FailureOf, DeltasOf, Read, IsRetryable, Accepted, Retry, Trials;
    TurnExactly(cfg.codec, turns, 0);
    TurnExactly(cfg.codec, turns, 1);
    TurnExactly(cfg.codec, turns, 2);
    assert Pow2(0) == 1 && Pow2(1) == 2;
    ReachedStep(cfg.codec, turns);
    TransientIsSilent(cfg.codec, turns(0).response);
    TransientIsSilent(cfg.codec, turns(1).response);
    hide Reached;
    var r, m := ChatRound(cfg, turns), |ChatRound(cfg, turns).delivered|;
    assert m <= 3;
    assert m > 0 ==> r.delivered[0] == DeltasOf(cfg.codec, turns(0).response);
    assert m > 1 ==> r.delivered[1] == DeltasOf(cfg.codec, turns(1).response);
    assert m > 2 ==> r.delivered[2] == DeltasOf(cfg.codec, turns(2).response);
  }
}
