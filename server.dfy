/** The two application-wide middlewares of the server: the protection gate
    that turns the rate-limit/bot decision into a refusal or a pass, and the
    middleware that forbids caching of every API response. The decision
    itself comes from the protection service and is an input here. */
module Server {
  import opened Json
  import opened Http

  /** The reason attached to a decision or to one rule's result. */
  datatype Reason = RateLimit | Bot(spoofed: bool) | OtherReason

  datatype Decision = Decision(denied: bool, reason: Reason, results: seq<Reason>)

  /** The outcome of `aj.protect(req)`: a decision, or the error it threw. */
  datatype Protection = Decided(decision: Decision) | Threw(error: string)

  /** What the gate does with the request. */
  datatype Verdict = Refuse(status: int, error: string) | Pass | PassError(error: string)

  /** `r.reason.isBot() && r.reason.isSpoofed()`. */
  predicate SpoofedBot(r: Reason)
  {
    r.Bot? && r.spoofed
  }

  /** `results.some(SpoofedBot)`, scanning from the front. */
  function AnySpoofed(results: seq<Reason>): (r: bool)
    ensures r <==> exists i :: 0 <= i < |results| && SpoofedBot(results[i])
  {
    if results == [] then false
    else if SpoofedBot(results[0]) then true
    else
      var rest := AnySpoofed(results[1..]);
      assert forall i :: 1 <= i < |results| ==> results[i] == results[1..][i - 1];
      rest
  }

  /** The branches of the gate, in the order the source tests them. */
  function GateVerdict(p: Protection): (v: Verdict)
    ensures p.Threw? <==> v.PassError?
    ensures p.Threw? ==> v == PassError(p.error)
    ensures v == Pass <==> p.Decided? && !p.decision.denied && !AnySpoofed(p.decision.results)
    ensures v.Refuse? ==> v.status == 429 || v.status == 403
    ensures v.Refuse? && v.status == 429 <==> p.Decided? && p.decision.denied && p.decision.reason == RateLimit
  {
    match p
    case Threw(e) => PassError(e)
    case Decided(d) =>
      if d.denied then
        if d.reason == RateLimit then Refuse(429, "Too Many Requests")
        else if d.reason.Bot? then Refuse(403, "Bot access denied")
        else Refuse(403, "Forbidden")
      else if AnySpoofed(d.results) then Refuse(403, "Spoofed bot detected")
      else Pass
  }

  /** A denial is never let through, whatever the individual results say. */
  lemma DenialNeverPasses(d: Decision)
    requires d.denied
    ensures GateVerdict(Decided(d)).Refuse?
    ensures d.reason.Bot? ==> GateVerdict(Decided(d)) == Refuse(403, "Bot access denied")
    ensures d.reason == OtherReason ==> GateVerdict(Decided(d)) == Refuse(403, "Forbidden")
  {
  }

  /** One spoofed bot among an allowed decision's results refuses the
      request. */
  lemma SpoofedResultRefuses(d: Decision, i: int)
    requires !d.denied && 0 <= i < |d.results| && SpoofedBot(d.results[i])
    ensures GateVerdict(Decided(d)) == Refuse(403, "Spoofed bot detected")
  {
  }

  /** The protection middleware. */
  method Protect(p: Protection, res: Response, next: Next)
    modifies res, next
    ensures res.headers == old(res.headers) && res.cookies == old(res.cookies)
    ensures GateVerdict(p).Refuse? ==>
              && res.status == GateVerdict(p).status && res.body == Some(ErrorBody(GateVerdict(p).error))
              && next.calls == old(next.calls)
    ensures GateVerdict(p) == Pass ==>
              next.calls == old(next.calls) + [Proceed] && res.status == old(res.status) && res.body == old(res.body)
    ensures GateVerdict(p).PassError? ==>
              next.calls == old(next.calls) + [Forward(GateVerdict(p).error)]
              && res.status == old(res.status) && res.body == old(res.body)
  {
    var v := GateVerdict(p);
    match v
    case Refuse(status, error) =>
      res.Send(status, ErrorBody(error));
    case Pass =>
      next.Call();
    case PassError(error) =>
      next.CallWithError(error);
  }

  const CacheControl := "no-store, no-cache, must-revalidate, proxy-revalidate"

  /** The response headers once the cache middleware has set its four,
      in the order it sets them. */
  function WithNoCacheHeaders(h: map<string, string>): map<string, string>
  {
    h["Cache-Control" := CacheControl]["Pragma" := "no-cache"]["Expires" := "0"]["Surrogate-Control" := "no-store"]
  }

  /** The four headers forbid every cache, and every other header stays as
      it was. */
  lemma NoCacheHeadersSet(h: map<string, string>)
    ensures var r := WithNoCacheHeaders(h);
            && r.Keys == h.Keys + {"Cache-Control", "Pragma", "Expires", "Surrogate-Control"}
            && r["Cache-Control"] == CacheControl && r["Pragma"] == "no-cache"
            && r["Expires"] == "0" && r["Surrogate-Control"] == "no-store"
            && (forall k :: k in h && k !in {"Cache-Control", "Pragma", "Expires", "Surrogate-Control"} ==> r[k] == h[k])
  {
  }

  /** The cache middleware: sets the four headers, keeps every other one,
      and passes the request on. */
  method NoCache(res: Response, next: Next)
    modifies res, next
    ensures res.headers == WithNoCacheHeaders(old(res.headers))
    ensures res.status == old(res.status) && res.body == old(res.body) && res.cookies == old(res.cookies)
    ensures next.calls == old(next.calls) + [Proceed]
  {
    res.SetHeader("Cache-Control", CacheControl);
    res.SetHeader("Pragma", "no-cache");
    res.SetHeader("Expires", "0");
    res.SetHeader("Surrogate-Control", "no-store");
    next.Call();
  }
}
