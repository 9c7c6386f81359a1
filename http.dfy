/**
 * The server's response object. The handler writes it step by step: `setHeader` for each header,
 * then `status(code)` and one of `json(body)` or `end()`, which send it.
 */
module Http {
  import opened Wrappers
  import Assoc
  import opened JsValues

  /** What the client receives: the status, the headers in order, and a JSON body or none. */
  datatype HttpResponse = HttpResponse(status: int, headers: seq<(string, string)>, body: Option<Json>)

  class ServerResponse {
    var statusCode: int
    var headers: seq<(string, string)>
    var finished: bool
    var body: Option<Json>

    /** A response not yet written: status 200 (the server's default), no headers, nothing sent. */
    constructor ()
      ensures statusCode == 200 && headers == [] && !finished && body == None
    {
      statusCode, headers, finished, body := 200, [], false, None;
    }

    /** The response as the client sees it. */
    function Sent(): HttpResponse
      reads this
    {
      HttpResponse(statusCode, headers, body)
    }

    /** `res.setHeader(name, value)`: replaces a header of that name or adds it at the end. */
    method SetHeader(name: string, value: string)
      requires !finished
      modifies this
      ensures headers == Assoc.Put(old(headers), name, value)
      ensures name !in Assoc.Keys(old(headers)) ==>
                headers == old(headers) + [(name, value)] && Assoc.Keys(headers) == Assoc.Keys(old(headers)) + [name]
      ensures name in Assoc.Keys(old(headers)) ==> Assoc.Keys(headers) == Assoc.Keys(old(headers))
      ensures statusCode == old(statusCode) && finished == old(finished) && body == old(body)
    {
      Assoc.PutKeys(old(headers), name, value);
      if name !in Assoc.Keys(old(headers)) {
        Assoc.PutAbsentAppends(old(headers), name, value);
      }
      headers := Assoc.Put(headers, name, value);
    }

    /** `res.status(code)`: sets the status code to send. */
    method Status(code: int)
      modifies this
      ensures statusCode == code
      ensures headers == old(headers) && finished == old(finished) && body == old(body)
    {
      statusCode := code;
    }

    /** `res.json(payload)`: sends the payload as the body and finishes the response. */
    method SendJson(payload: Json)
      requires !finished
      modifies this
      ensures finished && body == Some(payload)
      ensures statusCode == old(statusCode) && headers == old(headers)
    {
      body := Some(payload);
      finished := true;
    }

    /** `res.end()`: finishes the response with an empty body. */
    method End()
      requires !finished
      modifies this
      ensures finished && body == None
      ensures statusCode == old(statusCode) && headers == old(headers)
    {
      body := None;
      finished := true;
    }
  }
}
