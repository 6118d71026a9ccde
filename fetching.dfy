/** The fetch fallback chain of `fetchSpreadsheetData`: the CSV export URL directly,
    then the corsproxy.io relay, then the allorigins relay whose JSON `contents`
    field is unwrapped. The network is a parameter: `fetch` says what each request
    would produce. */
module Fetching {
  import opened Wrappers

  /** The three URLs the pipeline may request (URL construction is not modelled). */
  datatype Endpoint = Direct | CorsProxy | AllOrigins

  /** What one request produces: it throws (network failure, or for the allorigins
      relay a JSON body that does not decode), or it answers with an ok flag and a
      body. For the allorigins relay the body is the unwrapped `contents` field. */
  datatype Attempt = Threw | Answered(ok: bool, body: string)

  /** The outcome of the chain: the CSV text when some response was ok, and the
      endpoints requested, in order. */
  datatype FetchRun = FetchRun(text: Option<string>, requested: seq<Endpoint>)

  predicate IsOk(a: Attempt) {
    a.Answered? && a.ok
  }

  /** A response that is there but not ok: the only case in which the next relay is
      tried. A thrown request leaves the chain for the catch block. */
  predicate IsNotOk(a: Attempt) {
    a.Answered? && !a.ok
  }

  function FetchChain(fetch: Endpoint -> Attempt): (run: FetchRun)
    ensures 1 <= |run.requested| <= 3
    ensures run.requested == [Direct, CorsProxy, AllOrigins][..|run.requested|]
    ensures CorsProxy in run.requested <==> IsNotOk(fetch(Direct))
    ensures AllOrigins in run.requested <==> IsNotOk(fetch(Direct)) && IsNotOk(fetch(CorsProxy))
    ensures run.text.Some? <==> IsOk(fetch(run.requested[|run.requested| - 1]))
    ensures run.text.Some? ==> run.text.value == fetch(run.requested[|run.requested| - 1]).body
    ensures run.text.None? <==> forall e :: e in run.requested ==> !IsOk(fetch(e))
  {
    var direct := fetch(Direct);
    if IsNotOk(direct) then
      var relay := fetch(CorsProxy);
      if IsNotOk(relay) then
        var wrapped := fetch(AllOrigins);
        FetchRun(if IsOk(wrapped) then Some(wrapped.body) else None, [Direct, CorsProxy, AllOrigins])
      else
        FetchRun(if IsOk(relay) then Some(relay.body) else None, [Direct, CorsProxy])
    else
      FetchRun(if IsOk(direct) then Some(direct.body) else None, [Direct])
  }

  /** The chain as the source runs it: one `response` variable, reassigned by each
      further request while the current one is answered but not ok. */
  method FetchCsv(fetch: Endpoint -> Attempt) returns (text: Option<string>, requested: seq<Endpoint>)
    ensures FetchRun(text, requested) == FetchChain(fetch)
  {
    var response := fetch(Direct);
    requested := [Direct];
    if IsNotOk(response) {
      response := fetch(CorsProxy);
      requested := requested + [CorsProxy];
    }
    if IsNotOk(response) {
      response := fetch(AllOrigins);
      requested := requested + [AllOrigins];
    }
    text := if IsOk(response) then Some(response.body) else None;
  }
}
