/**
 * The request boundary of `generate_blog`: the request it receives, the JSON
 * responses it returns, and the validation that runs before any external call.
 */
module Responses {
  import opened Wrappers
  import opened PyStr
  import opened Links

  /**
   * What the JSON body yields. `Raised` stands for an exception inside the
   * `try` before any stage runs (`json.loads` fails, the body is not an
   * object, or the link is a truthy number or boolean so that `in` raises),
   * with its `str(e)`. `LinkField(None)` is a missing key or a falsy
   * non-string value. A JSON list or object as the link has no case here.
   */
  datatype Payload = Raised(detail: string) | LinkField(link: Option<string>)

  datatype Request = Request(httpMethod: string, payload: Payload)

  /** The terminal failure kinds of `generate_blog`, one per early return. */
  datatype Failure =
    | BadMethod
    | LinkMissing
    | LinkNotYouTube
    | TitleUnavailable
    | TranscriptUnavailable
    | ContentUnavailable
    | Internal(detail: string)

  datatype Body =
    | ErrorBody(error: string, detail: Option<string>)
    | BlogBody(id: nat, title: string, transcript: string, content: string)

  /** A `JsonResponse`: HTTP status and JSON body. */
  datatype JsonResponse = JsonResponse(status: nat, body: Body)

  const OK := 200
  const BAD_REQUEST := 400
  const METHOD_NOT_ALLOWED := 405
  const SERVER_ERROR := 500

  /** The status and error text each failure is reported with. */
  function FailureResponse(f: Failure): (r: JsonResponse)
    ensures r.body.ErrorBody?
    ensures r.status == METHOD_NOT_ALLOWED <==> f == BadMethod
    ensures r.status == BAD_REQUEST <==> f in {LinkMissing, LinkNotYouTube, TitleUnavailable}
    ensures r.status == SERVER_ERROR <==> f.Internal? || f in {TranscriptUnavailable, ContentUnavailable}
    ensures r.body.detail.Some? <==> f.Internal?
  {
    match f
    case BadMethod => JsonResponse(METHOD_NOT_ALLOWED, ErrorBody("Invalid request method", None))
    case LinkMissing => JsonResponse(BAD_REQUEST, ErrorBody("YouTube link not provided", None))
    case LinkNotYouTube => JsonResponse(BAD_REQUEST, ErrorBody("Provided link is not a valid YouTube URL", None))
    case TitleUnavailable => JsonResponse(BAD_REQUEST, ErrorBody("Failed to fetch YouTube title", None))
    case TranscriptUnavailable => JsonResponse(SERVER_ERROR, ErrorBody("Could not retrieve transcript", None))
    case ContentUnavailable => JsonResponse(SERVER_ERROR, ErrorBody("Failed to generate blog content", None))
    case Internal(d) => JsonResponse(SERVER_ERROR, ErrorBody("Internal server error", Some(d)))
  }

  /** Distinct failures are reported distinctly: a response names the failure that produced it. */
  lemma FailureResponseInjective(f: Failure, g: Failure)
    requires FailureResponse(f) == FailureResponse(g)
    ensures f == g
  {
  }

  /** The outcome of the checks made before any stage runs. */
  datatype Checked = Refuse(failure: Failure) | Accept(link: string)

  /**
   * The checks of `generate_blog` in their order: the HTTP method, then the
   * body, then the link's presence, then the two host substrings.
   */
  function Validate(req: Request): (c: Checked)
    ensures req.httpMethod != "POST" ==> c == Refuse(BadMethod)
    ensures req.httpMethod == "POST" && req.payload.Raised? ==> c == Refuse(Internal(req.payload.detail))
    ensures req.httpMethod == "POST" && req.payload.LinkField? && !Truthy(req.payload.link) ==> c == Refuse(LinkMissing)
    ensures c == Refuse(LinkNotYouTube) <==>
              req.httpMethod == "POST" && req.payload.LinkField? && Truthy(req.payload.link) &&
              !IsYouTubeLink(req.payload.link.value)
    ensures c.Accept? <==>
              req.httpMethod == "POST" && req.payload.LinkField? && Truthy(req.payload.link) &&
              IsYouTubeLink(req.payload.link.value)
    ensures c.Accept? ==> c.link == req.payload.link.value && c.link != ""
  {
    if req.httpMethod != "POST" then Refuse(BadMethod)
    else match req.payload
      case Raised(d) => Refuse(Internal(d))
      case LinkField(link) =>
        if !Truthy(link) then Refuse(LinkMissing)
        else if !IsYouTubeLink(link.value) then Refuse(LinkNotYouTube)
        else Accept(link.value)
  }
}
