/**
 * `app/api/enquiry/route.js`: the app-router `POST` handler.
 */
module AppRoute {
  import opened Intake
  import MongoCache

  /** `POST(request)`: `await request.json()` then the shared pipeline, with the verifier body
      percent-encoded and the answer built by `NextResponse.json`. */
  method Post(svc: Services, request: RequestBody, env: Env) returns (response: Response)
    requires svc.Valid()
    modifies svc, svc.cache
    ensures svc.Valid()
    ensures var t := Run(AppRouter, request, env, MongoCache.Step(old(svc.cache.State()), env.connect).result);
      response == t.response && svc.Snapshot() == After(old(svc.Snapshot()), t.calls, env.connect)
  {
    response := Handle(AppRouter, svc, request, env);
  }
}
