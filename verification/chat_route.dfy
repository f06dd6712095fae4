/**
  The backend proxy behind `POST /api/chat`: it normalises the configured
  backend address, validates the request body, makes at most two attempts
  (the second only after a transport failure, to the numeric loopback alias of a
  `localhost` address), classifies the outcome and maps a successful answer,
  filling in defaults. Each fetch is an input outcome; the timeout, which makes
  an in-flight fetch throw, is one way an attempt can throw.
 */
module ChatRoute {
  import opened Types
  import opened Text

  const LoopbackName := "localhost"
  const DefaultBaseUrl := "http://" + LoopbackName + ":8001"
  const LoopbackAddress := "127.0.0.1"
  const ChatPath := "/chat"

  const InvalidPayload := "Invalid messages payload"
  const Unreachable := "RAG backend unreachable"
  const BackendError := "RAG backend error"
  const ProcessingFailed := "Failed to process chat request"

  /**
    Not Modified: a status whose response may carry no body, so building the JSON
    error response with it throws, and the proxy's catch-all answers instead. It is
    the only such status outside the 2xx class.
   */
  const NotModified := 304

  /** The statuses a fetch `Response` can carry. */
  type HttpStatus = s: int | 200 <= s <= 599 witness 200

  /** `response.ok`: the status is in the 2xx class. */
  function IsOk(status: int): (ok: bool)
    ensures ok <==> status / 100 == 2
  {
    200 <= status <= 299
  }

  /** The backend's answer as parsed JSON; absent optional fields are `None`. */
  datatype BackendData = BackendData(message: string, sources: Option<seq<Source>>,
                                     totalSources: Option<int>, features: Option<Features>)

  /** A response body: parsable as the backend's answer, or not. */
  datatype ResponseBody = Json(data: BackendData) | NotJson(text: string)

  /** What one `fetch` did: threw (network failure or abort), or produced a response. */
  datatype FetchOutcome = Throws(error: string) | Responded(status: HttpStatus, body: ResponseBody)

  /** The request body the proxy receives: unparsable, or JSON whose `messages` is an array or not. */
  datatype RequestBody = Unparsable | Parsed(messages: Option<seq<Message>>)

  /** What the proxy answers: the assistant reply (status 200) or an error object. */
  datatype ProxyResponse =
    | Answer(content: string, sources: seq<Source>, totalSources: int, features: Features)
    | Failure(status: HttpStatus, error: string, detail: Option<string>)
  {
    function Status(): HttpStatus {
      if Answer? then 200 else status
    }
  }

  /** The proxy's response together with the URLs it fetched, in order. */
  datatype Exchange = Exchange(response: ProxyResponse, attempted: seq<string>)

  /** `BASE_RAG_API_URL.replace(/\/$/, '')`: one trailing slash is removed, if there is one. */
  function NormaliseBaseUrl(url: string): (r: string)
    ensures |url| > 0 && url[|url| - 1] == '/' ==> r + "/" == url
    ensures !(|url| > 0 && url[|url| - 1] == '/') ==> r == url
  {
    if |url| > 0 && url[|url| - 1] == '/' then url[..|url| - 1] else url
  }

  /** Appending a slash and normalising gives the address back. */
  lemma NormaliseUndoesTrailingSlash(url: string)
    ensures NormaliseBaseUrl(url + "/") == url
  {
  }

  /** Normalisation is not idempotent: `x//` becomes `x/`, which normalises again to `x`. */
  lemma NormaliseNotIdempotent()
    ensures NormaliseBaseUrl("x//") == "x/"
    ensures NormaliseBaseUrl(NormaliseBaseUrl("x//")) == "x"
  {
    NormaliseUndoesTrailingSlash("x/");
    NormaliseUndoesTrailingSlash("x");
  }

  /** The base address: `RAG_API_URL` when set and non-empty, else the default, then normalised. */
  function ConfiguredBaseUrl(env: Option<string>): (r: string)
    ensures env.None? || env == Some("") ==> r == DefaultBaseUrl
    ensures env.Some? && env.value != "" ==> r == NormaliseBaseUrl(env.value)
  {
    var raw := if env.Some? && env.value != "" then env.value else DefaultBaseUrl;
    NormaliseBaseUrl(raw)
  }

  /** The address of the second attempt: the first `localhost` replaced by `127.0.0.1`. */
  function FallbackBaseUrl(base: string): (r: string)
    ensures |r| == |base|
    ensures !Contains(base, LoopbackName) ==> r == base
  {
    ReplaceFirst(base, LoopbackName, LoopbackAddress)
  }

  /** The fallback address differs from the base exactly where the first `localhost` stood. */
  lemma FallbackDiffersFromBase(base: string)
    requires Contains(base, LoopbackName)
    ensures var i := IndexOf(base, LoopbackName).value;
            && |FallbackBaseUrl(base)| == |base|
            && FallbackBaseUrl(base)[..i] == base[..i]
            && FallbackBaseUrl(base)[i..i + 9] == LoopbackAddress
            && FallbackBaseUrl(base)[i + 9..] == base[i + 9..]
            && FallbackBaseUrl(base) != base
  {
    var i := IndexOf(base, LoopbackName).value;
    var f := FallbackBaseUrl(base);
    assert base[i..i + 9] == LoopbackName;
    assert f[i..i + 9] == LoopbackAddress;
  }

  /** The first `localhost` of the default address starts at index 7. */
  lemma DefaultLoopbackIndex()
    ensures IndexOf(DefaultBaseUrl, LoopbackName) == Some(7)
  {
    assert DefaultBaseUrl[7..16] == LoopbackName;
    assert OccursAt(DefaultBaseUrl, LoopbackName, 7);
    forall j: nat | j < 7 ensures !OccursAt(DefaultBaseUrl, LoopbackName, j) {
      assert DefaultBaseUrl[j] != 'l';
      if j + 9 <= |DefaultBaseUrl| {
        assert DefaultBaseUrl[j..j + 9][0] == DefaultBaseUrl[j];
      }
    }
  }

  /** With no configuration the base names localhost, so a transport failure is retried on 127.0.0.1. */
  lemma DefaultFallback()
    ensures ConfiguredBaseUrl(None) == DefaultBaseUrl
    ensures Contains(DefaultBaseUrl, LoopbackName)
    ensures FallbackBaseUrl(DefaultBaseUrl) == "http://" + LoopbackAddress + ":8001"
  {
    DefaultLoopbackIndex();
    var s := DefaultBaseUrl;
    assert s[..7] == "http://";
    assert s[7 + |LoopbackName|..] == ":8001";
  }

  /** The answer built from a successful backend body, with the documented defaults. */
  function MapSuccess(data: BackendData): (r: ProxyResponse)
    ensures r.Answer? && r.Status() == 200 && r.content == data.message
    ensures data.sources.Some? ==> r.sources == data.sources.value
    ensures data.sources.None? ==> r.sources == []
    ensures data.totalSources.Some? ==> r.totalSources == data.totalSources.value
    ensures data.totalSources.None? && data.sources.Some? ==> r.totalSources == |data.sources.value|
    ensures data.totalSources.None? && data.sources.None? ==> r.totalSources == 0
    ensures data.features.Some? ==> r.features == data.features.value
    ensures data.features.None? ==> r.features == map[]
  {
    var total :=
      match data.totalSources
      case Some(t) => t
      case None => if data.sources.Some? then |data.sources.value| else 0;
    Answer(data.message, ValueOr(data.sources, []), total, ValueOr(data.features, map[]))
  }

  /**
    The response for the response that some attempt produced. An error status is
    forwarded, except 304, with which the error response cannot be built.
   */
  function Classify(status: HttpStatus, body: ResponseBody): (r: ProxyResponse)
    ensures !IsOk(status) && status != NotModified ==> r == Failure(status, BackendError, None)
    ensures status == NotModified ==> r == Failure(500, ProcessingFailed, None)
    ensures IsOk(status) && body.NotJson? ==> r == Failure(500, ProcessingFailed, None)
    ensures IsOk(status) && body.Json? ==> r == MapSuccess(body.data)
  {
    if !IsOk(status) then
      if status == NotModified then Failure(500, ProcessingFailed, None)
      else Failure(status, BackendError, None)
    else match body
      case NotJson(_) => Failure(500, ProcessingFailed, None)
      case Json(data) => MapSuccess(data)
  }

  /**
    `POST` for a normalised base address `base`. `primary` is what the fetch to
    the base address does; `fallback` is what the fetch to the fallback address
    would do, and is consulted only if that fetch is made.
   */
  function Post(base: string, body: RequestBody, primary: FetchOutcome, fallback: FetchOutcome): (x: Exchange)
    // An unparsable body, or `messages` that is not an array, is answered without any fetch.
    ensures body.Unparsable? ==> x == Exchange(Failure(500, ProcessingFailed, None), [])
    ensures body.Parsed? && body.messages.None? ==> x == Exchange(Failure(400, InvalidPayload, None), [])
    // The first attempt goes to the base address; there are at most two.
    ensures body.Parsed? && body.messages.Some? ==>
              && 1 <= |x.attempted| <= 2
              && x.attempted[0] == base + ChatPath
    // The second attempt happens exactly when the first throws and the base names localhost.
    ensures body.Parsed? && body.messages.Some? ==>
              (|x.attempted| == 2 <==> primary.Throws? && Contains(base, LoopbackName))
    ensures |x.attempted| == 2 ==> x.attempted[1] == FallbackBaseUrl(base) + ChatPath
    // When no attempt produced a response: 503 with the last error as detail.
    ensures body.Parsed? && body.messages.Some? && primary.Throws? && |x.attempted| == 1 ==>
              x.response == Failure(503, Unreachable, Some(primary.error))
    ensures |x.attempted| == 2 && fallback.Throws? ==>
              x.response == Failure(503, Unreachable, Some(fallback.error))
    // A response, from whichever attempt produced it, is classified.
    ensures body.Parsed? && body.messages.Some? && primary.Responded? ==>
              x.response == Classify(primary.status, primary.body)
    ensures |x.attempted| == 2 && fallback.Responded? ==>
              x.response == Classify(fallback.status, fallback.body)
  {
    match body
    case Unparsable => Exchange(Failure(500, ProcessingFailed, None), [])
    case Parsed(None) => Exchange(Failure(400, InvalidPayload, None), [])
    case Parsed(Some(_)) =>
      var first := base + ChatPath;
      match primary
      case Responded(status, b) => Exchange(Classify(status, b), [first])
      case Throws(err) =>
        if Contains(base, LoopbackName) then
          var second := FallbackBaseUrl(base) + ChatPath;
          match fallback
          case Responded(status, b) => Exchange(Classify(status, b), [first, second])
          case Throws(err2) => Exchange(Failure(503, Unreachable, Some(err2)), [first, second])
        else
          Exchange(Failure(503, Unreachable, Some(err)), [first])
  }

  /**
    An HTTP error from the backend is not a transport failure: no fallback, and the
    status is forwarded (304 becomes the catch-all 500).
   */
  lemma HttpErrorNeverFallsBack(base: string, msgs: seq<Message>, status: HttpStatus,
                                b: ResponseBody, fallback: FetchOutcome)
    requires !IsOk(status)
    ensures var x := Post(base, Parsed(Some(msgs)), Responded(status, b), fallback);
            && x.attempted == [base + ChatPath]
            && x.response.Failure? && !IsOk(x.response.Status())
            && (status != NotModified ==> x.response == Failure(status, BackendError, None))
            && (status == NotModified ==> x.response == Failure(500, ProcessingFailed, None))
  {
  }

  /** Every error the proxy answers carries a status the client reads as not ok. */
  lemma FailuresAreNotOk(base: string, body: RequestBody, primary: FetchOutcome, fallback: FetchOutcome)
    ensures var r := Post(base, body, primary, fallback).response;
            r.Failure? ==> !IsOk(r.Status())
    ensures var r := Post(base, body, primary, fallback).response;
            r.Answer? <==> IsOk(r.Status())
  {
  }
}
