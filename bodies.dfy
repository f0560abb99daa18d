/**
 * What a log record keeps of the request body and of the response:
 * `OperateLogMixin.get_resp_data` and the `req_data` line of the wrapper.
 *
 * Byte decoding and `json.loads` are library calls; the model takes them as a
 * `Codec` of two functions and does not model their failures.
 */
module Bodies {
  import opened Values

  datatype Codec = Codec(decode: seq<byte> -> string, loads: string -> Json)

  /**
   * The response shapes a view can return, checked in this order: a REST
   * framework `Response` (itself an `HttpResponse` subclass, so it is tested
   * first), a plain `HttpResponse` or `JsonResponse` with its raw content,
   * and any other object.
   */
  datatype Response =
    | RestResponse(data: Json)
    | HttpResponse(content: seq<byte>)
    | OtherObject

  /** `get_resp_data`. */
  function GetRespData(resp: Response, codec: Codec): Json {
    match resp
    case RestResponse(data) => data
    case HttpResponse(content) =>
      if content == [] then EmptyObject
      else
        var text := codec.decode(content);
        codec.loads(if text == "" then "{}" else text)
    case OtherObject => EmptyObject
  }

  /**
   * The three response shapes: a REST response gives its data; an HTTP
   * response gives `{}` when it has no content and its parsed content
   * otherwise, the text "{}" standing in for content that decodes to
   * nothing; anything else gives `{}`.
   */
  lemma GetRespDataCases(resp: Response, codec: Codec)
    ensures resp.RestResponse? ==> GetRespData(resp, codec) == resp.data
    ensures resp.OtherObject? ==> GetRespData(resp, codec) == EmptyObject
    ensures resp.HttpResponse? && resp.content == [] ==> GetRespData(resp, codec) == EmptyObject
    ensures resp.HttpResponse? && resp.content != [] && codec.decode(resp.content) != "" ==>
              GetRespData(resp, codec) == codec.loads(codec.decode(resp.content))
    ensures resp.HttpResponse? && resp.content != [] && codec.decode(resp.content) == "" ==>
              GetRespData(resp, codec) == codec.loads("{}")
  {
  }

  /** `json.loads(request.body.decode()) if request.body else {}`. */
  function ParseBody(body: seq<byte>, codec: Codec): Json {
    if body == [] then EmptyObject else codec.loads(codec.decode(body))
  }

  /** A decoder under which no non-empty body decodes to the empty text (UTF-8 is one). */
  ghost predicate KeepsNonEmpty(codec: Codec) {
    forall content: seq<byte> {:trigger codec.decode(content)} :: content != [] ==> codec.decode(content) != ""
  }

  /** A parser that reads the text "{}" as the empty object. */
  predicate ParsesEmptyObject(codec: Codec) {
    codec.loads("{}") == EmptyObject
  }

  /**
   * Under a decoder that keeps non-empty bodies non-empty, the "{}" fallback
   * never fires: an HTTP response's content is read exactly as a request
   * body is.
   */
  lemma ResponseContentReadLikeRequestBody(content: seq<byte>, codec: Codec)
    requires KeepsNonEmpty(codec)
    ensures GetRespData(HttpResponse(content), codec) == ParseBody(content, codec)
  {
    if content != [] {
      assert codec.decode(content) != "";
    }
  }

  /**
   * With a parser that reads "{}" as the empty object, every response that
   * carries nothing readable (another object, no content, content that
   * decodes to nothing) is logged as the empty object.
   */
  lemma EmptyResponsesNormalise(resp: Response, codec: Codec)
    requires ParsesEmptyObject(codec)
    requires resp.OtherObject? || (resp.HttpResponse? && (resp.content == [] || codec.decode(resp.content) == ""))
    ensures GetRespData(resp, codec) == EmptyObject
  {
  }
}
