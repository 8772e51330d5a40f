/**
 * `app/api/enquiry/enquiry.js`: the pages-router `handler(req, res)`, with its method guard and
 * the verifier body built without encoding.
 */
module PagesApi {
  import opened Wrappers
  import opened Intake
  import MongoCache

  /** The parts of `req` the handler reads. */
  datatype ApiRequest = ApiRequest(httpMethod: string, body: RequestBody)

  /** The `res` object: status code, headers and the JSON payload written by `json`. */
  class ApiResponse {
    var statusCode: int
    var headers: map<string, seq<string>>
    var payload: Option<ResponseBody>

    /** A response not yet written: Node's default status 200, no headers, no body. */
    constructor ()
      ensures statusCode == 200 && headers == map[] && payload == None
    {
      statusCode := 200;
      headers := map[];
      payload := None;
    }

    method SetHeader(name: string, value: seq<string>)
      modifies this`headers
      ensures headers == old(headers)[name := value]
    {
      headers := headers[name := value];
    }

    method Status(code: int)
      modifies this`statusCode
      ensures statusCode == code
    {
      statusCode := code;
    }

    method Json(body: ResponseBody)
      modifies this`payload
      ensures payload == Some(body)
    {
      payload := Some(body);
    }
  }

  function NotAllowed(httpMethod: string): ResponseBody {
    ResponseBody(false, MethodNotAllowed(httpMethod), None)
  }

  /** `handler(req, res)`: anything but POST gets 405 with `Allow: POST` and touches no collaborator;
      a POST runs the shared pipeline with the raw verifier body and writes its status and JSON. */
  method Handler(svc: Services, req: ApiRequest, res: ApiResponse, env: Env)
    requires svc.Valid()
    modifies svc, svc.cache, res
    ensures svc.Valid()
    ensures req.httpMethod != "POST" ==>
      && res.statusCode == 405 && res.payload == Some(NotAllowed(req.httpMethod))
      && res.headers == old(res.headers)["Allow" := ["POST"]]
      && svc.Snapshot() == old(svc.Snapshot())
    ensures req.httpMethod == "POST" ==>
      var t := Run(PagesRouter, req.body, env, MongoCache.Step(old(svc.cache.State()), env.connect).result);
      && res.statusCode == t.response.status && res.payload == Some(t.response.body)
      && res.headers == old(res.headers)
      && svc.Snapshot() == After(old(svc.Snapshot()), t.calls, env.connect)
  {
    if req.httpMethod != "POST" {
      res.SetHeader("Allow", ["POST"]);
      res.Status(405);
      res.Json(NotAllowed(req.httpMethod));
      return;
    }
    var response := Handle(PagesRouter, svc, req.body, env);
    res.Status(response.status);
    res.Json(response.body);
  }
}
