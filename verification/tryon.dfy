/**
 * The try-on edge function: input checks, stripping of the data-URL prefix
 * from the two images, the bounded attempt loop against the image model with
 * its classification of every provider reply, extraction of the generated
 * image, and the best-effort caption.
 *
 * Each provider call is an abstract reply, so the whole request is a pure
 * outcome of the request body, the configured key and the sequence of
 * replies. Waiting between attempts is modelled by the delay it would wait.
 */
module TryOn {
  import opened Optional
  import JsText
  import opened DataUrls

  /** The loop is started with `retries = 3`. */
  const MaxAttempts: nat := 3
  /** The wait before attempt k + 1 is k times this many milliseconds. */
  const BackoffStepMs: nat := 2000

  const MissingImagesMessage := "Imagens do cliente e da roupa são obrigatórias"
  const MissingKeyMessage := "Configuração de API faltando"
  const RateLimitMessage := "Limite de requisições excedido. Tente novamente em alguns segundos."
  const QuotaMessage := "Quota da API excedida. Verifique sua conta Google AI."
  const ProviderErrorMessage := "Erro ao processar imagem com IA"
  const SafetyBlockedMessage := "As imagens não puderam ser processadas. Tente com imagens diferentes."
  const NoImageMessage := "Nenhuma imagem foi gerada pela IA após várias tentativas"
  const UnexpectedMessage := "Erro inesperado"
  const DefaultDescription :=
    "As estampas e cores foram transferidas com precisão cromática, adaptando-se às dobras e luz do corpo."

  // ---------------------------------------------------------------- messages

  datatype Body =
    | Failure(error: string)
    | Success(resultImage: string, description: string)

  datatype Response = Response(status: int, body: Body)

  /** The JSON body of the request; a missing field is `None`. */
  datatype TryOnRequest = TryOnRequest(clientImage: Option<string>, clothingImage: Option<string>)

  /** An inline-data object of a reply part; either spelling of the MIME field may be present. */
  datatype InlineData = InlineData(mimeType: Option<string>, mimeTypeSnake: Option<string>, data: Option<string>)

  /** One part of the first candidate: `inlineData` or, failing that, `inline_data`. */
  datatype Part = Part(inlineData: Option<InlineData>, inlineDataSnake: Option<InlineData>)

  /** The parsed JSON of a successful reply: the prompt feedback's block reason and the first candidate's parts. */
  datatype Payload = Payload(blockReason: Option<string>, parts: seq<Part>)

  /** What one call to the image model gives back. */
  datatype ProviderReply =
      /** The call (or reading its body) threw; `message` is present when the thrown value is an `Error`. */
    | Threw(message: Option<string>)
      /** An HTTP answer: its status, its text (read only when not OK) and its parsed JSON (read only when OK). */
    | Http(status: int, errorText: string, payload: Payload)

  /** What the caption call gives back: it threw, or an HTTP answer and the first part's text. */
  datatype CaptionReply =
    | CaptionThrew
    | CaptionHttp(ok: bool, text: Option<string>)

  predicate IsOk(status: int) {
    200 <= status <= 299
  }

  // ------------------------------------------------------------- cleanBase64

  /**
   * `cleanBase64`: with a comma in the text, the piece after the first comma
   * (up to the next comma); otherwise the text itself.
   */
  function CleanBase64(s: string): (r: string)
    ensures ',' !in s ==> r == s
    ensures ',' !in r
  {
    if ',' in s then JsText.Split(s, ',')[1] else s
  }

  /**
   * Where the cleaned text sits: with a comma in `s`, it starts right after
   * the first comma (at `i + 1`) and runs to the next comma or to the end.
   */
  lemma SecondPiece(s: string) returns (i: nat)
    requires ',' in s
    ensures i == JsText.IndexOf(s, ',')
    ensures i + 1 + |CleanBase64(s)| <= |s| && CleanBase64(s) == s[i + 1..i + 1 + |CleanBase64(s)|]
    ensures i + 1 + |CleanBase64(s)| == |s| || s[i + 1 + |CleanBase64(s)|] == ','
  {
    i := JsText.IndexOf(s, ',');
    JsText.SplitSecond(s, ',');
    var j := JsText.FirstPiece(s[i + 1..], ',');
    PrefixOfRest(s, i, CleanBase64(s), j);
  }

  /** A prefix of length `j` of `s[i + 1..]`, ended by a comma or by the end of `s`, seen as a slice of `s`. */
  lemma PrefixOfRest(s: string, i: nat, r: string, j: nat)
    requires i < |s| && j <= |s| - i - 1 && r == s[i + 1..][..j]
    requires j == |s| - i - 1 || s[i + 1..][j] == ','
    ensures i + 1 + |r| <= |s| && r == s[i + 1..i + 1 + |r|]
    ensures i + 1 + |r| == |s| || s[i + 1 + |r|] == ','
  {
    if j < |s| - i - 1 {
      assert s[i + 1 + j] == s[i + 1..][j];
    }
  }

  /**
   * Stripping the prefix of a data URL (section 3 of RFC 2397) gives back its
   * base64 payload, provided neither the MIME type nor the payload contains
   * a comma (base64 never does).
   */
  lemma CleanBase64OfDataUrl(mime: string, data: string)
    requires ',' !in mime && ',' !in data
    ensures CleanBase64(DataUrl(mime, data)) == data
  {
    var u := DataUrl(mime, data);
    var i := 5 + |mime| + 7;
    assert u[i] == ',';
    assert u[..i] == "data:" + mime + ";base64";
    assert ',' !in u[..i];
    assert JsText.IndexOf(u, ',') == i;
    assert u[i + 1..] == data;
    var _ := SecondPiece(u);
  }

  // ---------------------------------------------------- image-part extraction

  function InlineOf(p: Part): Option<InlineData> {
    if p.inlineData.Some? then p.inlineData else p.inlineDataSnake
  }

  function MimeOf(d: InlineData): Option<string> {
    if d.mimeType.Some? then d.mimeType else d.mimeTypeSnake
  }

  /** A part carries an image: its MIME type starts with `image/` and its data is not empty. */
  predicate IsImagePart(p: Part) {
    var d := InlineOf(p);
    d.Some? && MimeOf(d.value).Some? && JsText.StartsWith(MimeOf(d.value).value, "image/")
    && Truthy(d.value.data)
  }

  /** The data URL of an image part. */
  function ImageOf(p: Part): string
    requires IsImagePart(p)
  {
    DataUrl(MimeOf(InlineOf(p).value).value, InlineOf(p).value.data.value)
  }

  /** The image of the first part that carries one, if any. */
  function FirstImage(parts: seq<Part>): (r: Option<string>)
    ensures r.None? <==> forall i :: 0 <= i < |parts| ==> !IsImagePart(parts[i])
    ensures r.Some? ==> exists i :: 0 <= i < |parts| && IsImagePart(parts[i]) && r.value == ImageOf(parts[i])
                                    && forall j :: 0 <= j < i ==> !IsImagePart(parts[j])
  {
    if parts == [] then None
    else if IsImagePart(parts[0]) then Some(ImageOf(parts[0]))
    else
      var r := FirstImage(parts[1..]);
      assert forall i :: 1 <= i < |parts| ==> parts[i] == parts[1..][i - 1];
      r
  }

  /** The part scan: stops at the first image part and renders it as a data URL. */
  method ExtractImage(parts: seq<Part>) returns (generated: Option<string>)
    ensures generated == FirstImage(parts)
  {
    generated := None;
    var i := 0;
    while i < |parts|
      invariant 0 <= i <= |parts|
      invariant FirstImage(parts) == FirstImage(parts[i..])
    {
      var part := parts[i];
      if IsImagePart(part) {
        generated := Some(ImageOf(part));
        break;
      }
      assert parts[i..][1..] == parts[i + 1..];
      i := i + 1;
    }
  }

  // ----------------------------------------------------------------- caption

  /**
   * The caption: the trimmed generated text when its `length` (in UTF-16
   * code units) exceeds 10, else the default.
   */
  function CaptionOf(reply: CaptionReply): (d: string)
    ensures d == DefaultDescription
            || (reply.CaptionHttp? && reply.ok && reply.text.Some? && d == JsText.Trim(reply.text.value)
                && JsText.Utf16Length(d) > 10)
    ensures reply.CaptionHttp? && reply.ok && reply.text.Some? && JsText.Utf16Length(JsText.Trim(reply.text.value)) > 10
            ==> d == JsText.Trim(reply.text.value)
  {
    match reply
    case CaptionThrew => DefaultDescription
    case CaptionHttp(ok, text) =>
      if ok && text.Some? && JsText.Utf16Length(JsText.Trim(text.value)) > 10 then JsText.Trim(text.value) else DefaultDescription
  }

  /** The caption step: starts from the default and replaces it only with a usable generated text. */
  method Describe(reply: CaptionReply) returns (description: string)
    ensures description == CaptionOf(reply)
  {
    description := DefaultDescription;
    if reply.CaptionHttp? && reply.ok && reply.text.Some? {
      var generated := JsText.Trim(reply.text.value);
      if JsText.Utf16Length(generated) > 10 {
        description := generated;
      }
    }
  }

  /** For text of the Basic Multilingual Plane the test counts characters: more than 10 keeps the caption. */
  lemma BmpCaptionKeptIffLong(t: string)
    requires forall k :: 0 <= k < |JsText.Trim(t)| ==> JsText.Trim(t)[k] as int <= 0xFFFF
    ensures CaptionOf(CaptionHttp(true, Some(t))) == JsText.Trim(t) <==> |JsText.Trim(t)| > 10
  {
    JsText.Utf16LengthOfBmp(JsText.Trim(t));
    assert |DefaultDescription| > 10;
  }

  /** Six characters outside the Basic Multilingual Plane are twelve code units, so such a caption is kept. */
  lemma AstralCaptionKept(t: string)
    requires |JsText.Trim(t)| >= 6
    requires forall k :: 0 <= k < |JsText.Trim(t)| ==> JsText.Trim(t)[k] as int > 0xFFFF
    ensures CaptionOf(CaptionHttp(true, Some(t))) == JsText.Trim(t)
  {
    JsText.Utf16LengthOfAstral(JsText.Trim(t));
  }

  // ---------------------------------------------------------- classification

  /** What the loop does with one reply. */
  datatype Step =
    | Finish(response: Response)  // returns this response
    | Generated(image: string)    // an image is in hand: caption it and return it
    | Backoff(delayMs: nat)       // waits, then the next attempt
    | Exhaust                     // the last attempt ends without an image: the loop ends
    | Rethrow(message: Option<string>)

  predicate SafetyBlocked(p: Payload) {
    Truthy(p.blockReason)
  }

  /** How attempt `attempt` of `retries` sorts a reply. */
  function Classify(reply: ProviderReply, attempt: nat, retries: nat): (s: Step)
    // a retry is only ever scheduled while attempts remain, after a wait growing with the attempt
    ensures s.Backoff? ==> attempt < retries && s.delayMs == attempt * BackoffStepMs
    ensures s.Exhaust? || s.Rethrow? ==> attempt >= retries && !s.Backoff?
    // every response decided here is an error with one of the four statuses
    ensures s.Finish? ==> s.response.body.Failure? && s.response.status in {400, 402, 429, 500}
    // only an OK reply yields an image, and only a thrown call is rethrown
    ensures s.Generated? ==> reply.Http? && IsOk(reply.status)
    ensures s.Rethrow? ==> reply.Threw?
  {
    match reply
    case Threw(m) =>
      if attempt < retries then Backoff(attempt * BackoffStepMs) else Rethrow(m)
    case Http(status, errorText, payload) =>
      if !IsOk(status) then
        if status == 429 then Finish(Response(429, Failure(RateLimitMessage)))
        else if status == 403 || JsText.Includes(errorText, "QUOTA") then Finish(Response(402, Failure(QuotaMessage)))
        else if status >= 500 && attempt < retries then Backoff(attempt * BackoffStepMs)
        else Finish(Response(500, Failure(ProviderErrorMessage)))
      else if SafetyBlocked(payload) then
        if attempt < retries then Backoff(attempt * BackoffStepMs)
        else Finish(Response(400, Failure(SafetyBlockedMessage)))
      else
        match FirstImage(payload.parts)
        case Some(image) => Generated(image)
        case None => if attempt < retries then Backoff(attempt * BackoffStepMs) else Exhaust
  }

  /** The classification rules of the attempt loop, in the order the code tests them. */
  lemma ClassifyRules(reply: ProviderReply, attempt: nat, retries: nat)
    ensures var s := Classify(reply, attempt, retries);
      // a 429 aborts at once whatever the attempt, before the quota test
      (reply.Http? && reply.status == 429 ==> s == Finish(Response(429, Failure(RateLimitMessage))))
      // 403, or a QUOTA error text, aborts at once as 402
      && (reply.Http? && !IsOk(reply.status) && reply.status != 429
          && (reply.status == 403 || JsText.Includes(reply.errorText, "QUOTA"))
          ==> s == Finish(Response(402, Failure(QuotaMessage))))
      // only a thrown call, a 5xx, a safety block or a reply without an image is retried,
      // and only while attempts remain
      && (s.Backoff? <==>
           (attempt < retries &&
            (reply.Threw?
             || (!IsOk(reply.status) && reply.status >= 500 && reply.status != 403
                 && !JsText.Includes(reply.errorText, "QUOTA"))
             || (IsOk(reply.status) && (SafetyBlocked(reply.payload) || FirstImage(reply.payload.parts).None?)))))
      && (s.Backoff? ==> s.delayMs == attempt * BackoffStepMs)
      // any other non-OK status gives 500
      && (reply.Http? && !IsOk(reply.status) && reply.status != 429 && reply.status != 403
          && !JsText.Includes(reply.errorText, "QUOTA") && !(reply.status >= 500 && attempt < retries)
          ==> s == Finish(Response(500, Failure(ProviderErrorMessage))))
      // a safety block is tested before the image parts, and gives 400 on the last attempt
      && (reply.Http? && IsOk(reply.status) && SafetyBlocked(reply.payload) && attempt >= retries
          ==> s == Finish(Response(400, Failure(SafetyBlockedMessage))))
      && (s.Generated? <==> reply.Http? && IsOk(reply.status) && !SafetyBlocked(reply.payload)
                            && FirstImage(reply.payload.parts).Some?)
      && (s.Generated? ==> Some(s.image) == FirstImage(reply.payload.parts))
      && (s.Exhaust? ==> attempt >= retries)
      && (s.Rethrow? <==> reply.Threw? && attempt >= retries)
  {
  }

  // ------------------------------------------------------------ attempt loop

  /** Attempt `j` (counted from 1) waits and tries again. */
  predicate BacksOffAt(replies: seq<ProviderReply>, j: nat, retries: nat) {
    1 <= j <= |replies| && Classify(replies[j - 1], j, retries).Backoff?
  }

  /** `callWithRetry` either returns a response or throws. */
  datatype CallResult = Returned(response: Response) | Raised(message: Option<string>)

  /** The result, the number of provider calls made and the waits in between. */
  datatype Outcome = Outcome(result: CallResult, attempts: nat, delays: seq<nat>)

  /** The loop from attempt `attempt` on. */
  function Run(replies: seq<ProviderReply>, caption: CaptionReply, attempt: nat, retries: nat): (o: Outcome)
    requires 1 <= attempt && |replies| >= retries
    ensures attempt <= retries ==> 1 <= o.attempts <= retries - attempt + 1 && |o.delays| == o.attempts - 1
    ensures attempt > retries ==> o.attempts == 0 && o.delays == []
    ensures forall k :: 0 <= k < |o.delays| ==> o.delays[k] == (attempt + k) * BackoffStepMs
    decreases retries + 1 - attempt
  {
    if attempt > retries then Outcome(Returned(Response(500, Failure(NoImageMessage))), 0, [])
    else
      match Classify(replies[attempt - 1], attempt, retries)
      case Finish(response) => Outcome(Returned(response), 1, [])
      case Generated(image) => Outcome(Returned(Response(200, Success(image, CaptionOf(caption)))), 1, [])
      case Rethrow(m) => Outcome(Raised(m), 1, [])
      case Backoff(d) =>
        var o := Run(replies, caption, attempt + 1, retries);
        Outcome(o.result, o.attempts + 1, [d] + o.delays)
      case Exhaust =>
        var o := Run(replies, caption, attempt + 1, retries);
        Outcome(o.result, o.attempts + 1, o.delays)
  }

  /** The request as served: `callWithRetry(3)`. */
  function Generate(replies: seq<ProviderReply>, caption: CaptionReply): (o: Outcome)
    requires |replies| >= MaxAttempts
    ensures 1 <= o.attempts <= MaxAttempts && |o.delays| == o.attempts - 1
    ensures forall k :: 0 <= k < |o.delays| ==> o.delays[k] == (k + 1) * BackoffStepMs
  {
    Run(replies, caption, 1, MaxAttempts)
  }

  /** `o` preceded by `n` attempts that waited `delays`. */
  function After(n: nat, delays: seq<nat>, o: Outcome): Outcome {
    Outcome(o.result, n + o.attempts, delays + o.delays)
  }

  /**
   * The body of one turn of `callWithRetry`, up to what the turn does next:
   * the tests of the code, in its order, on the reply of attempt `attempt`.
   */
  method Attempt(reply: ProviderReply, attempt: nat, retries: nat) returns (step: Step)
    ensures step == Classify(reply, attempt, retries)
  {
    match reply {
      case Threw(m) =>
        if attempt < retries {
          return Backoff(attempt * BackoffStepMs);
        }
        return Rethrow(m);
      case Http(status, errorText, payload) =>
        if !IsOk(status) {
          if status == 429 {
            return Finish(Response(429, Failure(RateLimitMessage)));
          }
          if status == 403 || JsText.Includes(errorText, "QUOTA") {
            return Finish(Response(402, Failure(QuotaMessage)));
          }
          if status >= 500 && attempt < retries {
            return Backoff(attempt * BackoffStepMs);
          }
          return Finish(Response(500, Failure(ProviderErrorMessage)));
        }
        if SafetyBlocked(payload) {
          if attempt < retries {
            return Backoff(attempt * BackoffStepMs);
          }
          return Finish(Response(400, Failure(SafetyBlockedMessage)));
        }
        var generated := ExtractImage(payload.parts);
        if generated.Some? {
          return Generated(generated.value);
        }
        if attempt < retries {
          return Backoff(attempt * BackoffStepMs);
        }
        return Exhaust;
    }
  }

  /**
   * `callWithRetry`: a loop over the attempts that waits and continues on a
   * retryable reply, returns at once on a final one (captioning a generated
   * image first), rethrows on the last thrown call, and gives the "no image"
   * 500 when the loop runs out.
   */
  method CallWithRetry(replies: seq<ProviderReply>, caption: CaptionReply, retries: nat)
    returns (result: CallResult, attempts: nat, delays: seq<nat>)
    requires |replies| >= retries
    ensures Outcome(result, attempts, delays) == Run(replies, caption, 1, retries)
  {
    attempts, delays := 0, [];
    var attempt := 1;
    while attempt <= retries
      invariant 1 <= attempt <= retries + 1
      invariant attempts == attempt - 1
      invariant Run(replies, caption, 1, retries) == After(attempts, delays, Run(replies, caption, attempt, retries))
      decreases retries + 1 - attempt
    {
      attempts := attempts + 1;
      var step := Attempt(replies[attempt - 1], attempt, retries);
      LoopTurn(replies, caption, attempt, retries, step, attempts - 1, delays);
      match step {
        case Backoff(delay) =>
          delays := delays + [delay];
        case Exhaust =>
        case Finish(response) =>
          result := Returned(response);
          return;
        case Generated(image) =>
          var description := Describe(caption);
          result := Returned(Response(200, Success(image, description)));
          return;
        case Rethrow(m) =>
          result := Raised(m);
          return;
      }
      attempt := attempt + 1;
    }
    result := Returned(Response(500, Failure(NoImageMessage)));
  }

  // ----------------------------------------------------------------- handler

  /** The response for what `callWithRetry` produced: a thrown error becomes a 500 with its message. */
  function Respond(result: CallResult): (r: Response)
    ensures result.Returned? ==> r == result.response
    ensures result.Raised? ==> r.status == 500 && r.body == Failure(result.message.GetOr(UnexpectedMessage))
  {
    match result
    case Returned(response) => response
    case Raised(m) => Response(500, Failure(m.GetOr(UnexpectedMessage)))
  }

  /**
   * The edge function for one POST: checks the two images and the key, strips
   * the data-URL prefixes, and runs the attempt loop. `sent` is the pair of
   * image payloads passed to the model, absent when no call is made.
   */
  method Handle(request: TryOnRequest, apiKey: Option<string>, replies: seq<ProviderReply>, caption: CaptionReply)
    returns (response: Response, sent: Option<(string, string)>, attempts: nat, delays: seq<nat>)
    requires |replies| >= MaxAttempts
    ensures !Truthy(request.clientImage) || !Truthy(request.clothingImage) ==>
      response == Response(400, Failure(MissingImagesMessage)) && sent == None && attempts == 0 && delays == []
    ensures Truthy(request.clientImage) && Truthy(request.clothingImage) && !Truthy(apiKey) ==>
      response == Response(500, Failure(MissingKeyMessage)) && sent == None && attempts == 0 && delays == []
    ensures Truthy(request.clientImage) && Truthy(request.clothingImage) && Truthy(apiKey) ==>
      sent == Some((CleanBase64(request.clientImage.value), CleanBase64(request.clothingImage.value)))
      && Generate(replies, caption) == Outcome(Generate(replies, caption).result, attempts, delays)
      && response == Respond(Generate(replies, caption).result)
    ensures attempts <= MaxAttempts && (attempts == 0 <==> sent == None)
  {
    attempts, delays := 0, [];
    if !Truthy(request.clientImage) || !Truthy(request.clothingImage) {
      return Response(400, Failure(MissingImagesMessage)), None, attempts, delays;
    }
    if !Truthy(apiKey) {
      return Response(500, Failure(MissingKeyMessage)), None, attempts, delays;
    }
    var clientData := CleanBase64(request.clientImage.value);
    var clothingData := CleanBase64(request.clothingImage.value);
    sent := Some((clientData, clothingData));
    var result;
    result, attempts, delays := CallWithRetry(replies, caption, MaxAttempts);
    response := Respond(result);
  }

  // ------------------------------------------------------------------ lemmas

  /** Two stretches of attempts in a row. */
  lemma AfterAfter(n: nat, d: seq<nat>, e: seq<nat>, o: Outcome)
    ensures After(n, d, After(1, e, o)) == After(n + 1, d + e, o)
  {
    assert (d + e) + o.delays == d + (e + o.delays);
  }

  /**
   * One turn of `CallWithRetry` on the step its attempt gives: a wait or an
   * exhausted last attempt keeps the loop invariant for the next attempt; a
   * final step ends the loop with what that attempt gives.
   */
  lemma LoopTurn(replies: seq<ProviderReply>, caption: CaptionReply, attempt: nat, retries: nat,
                 step: Step, done: nat, delays: seq<nat>)
    requires 1 <= attempt <= retries && |replies| >= retries
    requires step == Classify(replies[attempt - 1], attempt, retries)
    requires Run(replies, caption, 1, retries) == After(done, delays, Run(replies, caption, attempt, retries))
    ensures step.Backoff? ==>
      Run(replies, caption, 1, retries) == After(done + 1, delays + [step.delayMs], Run(replies, caption, attempt + 1, retries))
    ensures step.Exhaust? ==>
      Run(replies, caption, 1, retries) == After(done + 1, delays, Run(replies, caption, attempt + 1, retries))
    ensures step.Finish? ==> Run(replies, caption, 1, retries) == Outcome(Returned(step.response), done + 1, delays)
    ensures step.Generated? ==>
      Run(replies, caption, 1, retries) == Outcome(Returned(Response(200, Success(step.image, CaptionOf(caption)))), done + 1, delays)
    ensures step.Rethrow? ==> Run(replies, caption, 1, retries) == Outcome(Raised(step.message), done + 1, delays)
  {
    if step.Backoff? {
      RunAfterBackoff(replies, caption, attempt, retries);
      AfterAfter(done, delays, [attempt * BackoffStepMs], Run(replies, caption, attempt + 1, retries));
    } else if step.Exhaust? {
      AfterAfter(done, delays, [], Run(replies, caption, attempt + 1, retries));
      assert delays + [] == delays;
    } else {
      assert delays + [] == delays;
    }
  }

  /** One attempt that backs off: a wait of `attempt` times 2000 ms, then the loop goes on. */
  lemma RunAfterBackoff(replies: seq<ProviderReply>, caption: CaptionReply, attempt: nat, retries: nat)
    requires 1 <= attempt && |replies| >= retries && BacksOffAt(replies, attempt, retries)
    ensures attempt < retries
    ensures Run(replies, caption, attempt, retries)
         == After(1, [attempt * BackoffStepMs], Run(replies, caption, attempt + 1, retries))
  {
  }

  /**
   * Attempts that all back off are skipped over: the loop from `a` ends as
   * the loop from `k` does, after `k - a` more attempts and their waits.
   */
  lemma {:induction false} RunSkipsBackoffs(replies: seq<ProviderReply>, caption: CaptionReply, a: nat, k: nat, retries: nat)
    requires 1 <= a <= k <= retries + 1 && |replies| >= retries
    requires forall j :: a <= j < k ==> BacksOffAt(replies, j, retries)
    ensures Run(replies, caption, a, retries).result == Run(replies, caption, k, retries).result
    ensures Run(replies, caption, a, retries).attempts == (k - a) + Run(replies, caption, k, retries).attempts
    decreases k - a
  {
    if a < k {
      assert BacksOffAt(replies, a, retries);
      RunAfterBackoff(replies, caption, a, retries);
      RunSkipsBackoffs(replies, caption, a + 1, k, retries);
    }
  }

  /** At most three provider calls, and the waits between them are 2000 ms, then 4000 ms. */
  lemma AttemptBudget(replies: seq<ProviderReply>, caption: CaptionReply)
    requires |replies| >= MaxAttempts
    ensures var o := Generate(replies, caption);
      1 <= o.attempts <= 3 && o.delays == [2000, 4000][..o.attempts - 1]
  {
    var o := Generate(replies, caption);
    assert forall k :: 0 <= k < |o.delays| ==> o.delays[k] == (1 + k) * 2000;
  }

  /**
   * A 429 at any attempt ends the request at once with 429, whatever the
   * attempt number: no later reply is consulted.
   */
  lemma RateLimitEndsRequest(replies: seq<ProviderReply>, caption: CaptionReply, k: nat)
    requires |replies| >= MaxAttempts && k < MaxAttempts
    requires forall j :: 1 <= j <= k ==> BacksOffAt(replies, j, MaxAttempts)
    requires replies[k].Http? && replies[k].status == 429
    ensures Generate(replies, caption).result == Returned(Response(429, Failure(RateLimitMessage)))
    ensures Generate(replies, caption).attempts == k + 1
  {
    RunSkipsBackoffs(replies, caption, 1, k + 1, MaxAttempts);
  }

  /** A 403, or an error text mentioning QUOTA, at any attempt ends the request at once with 402. */
  lemma QuotaEndsRequest(replies: seq<ProviderReply>, caption: CaptionReply, k: nat)
    requires |replies| >= MaxAttempts && k < MaxAttempts
    requires forall j :: 1 <= j <= k ==> BacksOffAt(replies, j, MaxAttempts)
    requires replies[k].Http? && !IsOk(replies[k].status) && replies[k].status != 429
    requires replies[k].status == 403 || JsText.Includes(replies[k].errorText, "QUOTA")
    ensures Generate(replies, caption).result == Returned(Response(402, Failure(QuotaMessage)))
    ensures Generate(replies, caption).attempts == k + 1
  {
    RunSkipsBackoffs(replies, caption, 1, k + 1, MaxAttempts);
  }

  /** A safety block on every attempt is retried twice and then answered with 400. */
  lemma SafetyBlockGivesUpWith400(replies: seq<ProviderReply>, caption: CaptionReply)
    requires |replies| >= MaxAttempts
    requires forall j :: 0 <= j < MaxAttempts ==>
      replies[j].Http? && IsOk(replies[j].status) && SafetyBlocked(replies[j].payload)
    ensures Generate(replies, caption) == Outcome(Returned(Response(400, Failure(SafetyBlockedMessage))), 3, [2000, 4000])
  {
    assert Classify(replies[2], 3, 3) == Finish(Response(400, Failure(SafetyBlockedMessage)));
    assert Run(replies, caption, 3, 3).delays == [];
    assert Run(replies, caption, 2, 3).delays == [4000];
  }

  /** A thrown call on every attempt is retried twice and then rethrown (a 500 carrying its message). */
  lemma ThrownOnEveryAttempt(replies: seq<ProviderReply>, caption: CaptionReply)
    requires |replies| >= MaxAttempts
    requires forall j :: 0 <= j < MaxAttempts ==> replies[j].Threw?
    ensures Generate(replies, caption) == Outcome(Raised(replies[2].message), 3, [2000, 4000])
    ensures Respond(Generate(replies, caption).result).status == 500
  {
    assert Run(replies, caption, 3, 3) == Outcome(Raised(replies[2].message), 1, []);
    assert Run(replies, caption, 2, 3).delays == [4000];
  }

  /** A reply without an image on every attempt ends with the "no image" 500 after three calls. */
  lemma NoImageOnEveryAttempt(replies: seq<ProviderReply>, caption: CaptionReply)
    requires |replies| >= MaxAttempts
    requires forall j :: 0 <= j < MaxAttempts ==>
      replies[j].Http? && IsOk(replies[j].status) && !SafetyBlocked(replies[j].payload)
      && FirstImage(replies[j].payload.parts).None?
    ensures Generate(replies, caption) == Outcome(Returned(Response(500, Failure(NoImageMessage))), 3, [2000, 4000])
  {
    assert Classify(replies[2], 3, 3) == Exhaust;
    assert Run(replies, caption, 3, 3).delays == [];
    assert Run(replies, caption, 2, 3).delays == [4000];
  }

  /** A 5xx on every attempt is retried twice, then the last one is not retried and gives the generic 500. */
  lemma ServerErrorOnLastAttempt(replies: seq<ProviderReply>, caption: CaptionReply)
    requires |replies| >= MaxAttempts
    requires forall j :: 0 <= j < MaxAttempts ==>
      replies[j].Http? && replies[j].status >= 500 && !JsText.Includes(replies[j].errorText, "QUOTA")
    ensures Generate(replies, caption) == Outcome(Returned(Response(500, Failure(ProviderErrorMessage))), 3, [2000, 4000])
  {
    assert Run(replies, caption, 3, 3) == Outcome(Returned(Response(500, Failure(ProviderErrorMessage))), 1, []);
    assert Run(replies, caption, 2, 3).delays == [4000];
  }

  /**
   * On success the response is 200 with the first image part as a data URL;
   * the caption never turns a success into a failure, whatever its call gives.
   */
  lemma SuccessCarriesFirstImage(replies: seq<ProviderReply>, caption: CaptionReply, k: nat)
    requires |replies| >= MaxAttempts && k < MaxAttempts
    requires forall j :: 1 <= j <= k ==> BacksOffAt(replies, j, MaxAttempts)
    requires replies[k].Http? && IsOk(replies[k].status) && !SafetyBlocked(replies[k].payload)
    requires FirstImage(replies[k].payload.parts).Some?
    ensures Generate(replies, caption).result
      == Returned(Response(200, Success(FirstImage(replies[k].payload.parts).value, CaptionOf(caption))))
    ensures Generate(replies, caption).attempts == k + 1
  {
    RunSkipsBackoffs(replies, caption, 1, k + 1, MaxAttempts);
  }
}
