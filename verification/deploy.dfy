/** Triggering one site's deploy hook (`handleDeploy`).

    The browser globals are not called: the awaited `fetch` becomes an input
    `Outcome`, and each `fetch` issued and each `alert` shown is recorded, in
    order, in the returned effect trace. */
module Deploy {
  import opened Js
  import opened Types

  const NoHookMessage := "No deploy hook defined for this site."
  const SuccessMessage := "Deployment triggered successfully!"
  const ErrorMessage := "Error triggering deployment"
  /** The text of the error thrown inside the try block for a readable failure. */
  const StatusErrorText := "Failed to trigger deployment"
  /** The response type a `no-cors` request to another origin produces. */
  const OpaqueType := "opaque"

  /** How the awaited `fetch` settled: it rejected (whatever it threw), or it
      resolved with a response whose `ok` and `type` fields are observable. */
  datatype Outcome = Rejected | Resolved(ok: bool, responseType: string)

  /** The request `fetch` is asked to send. */
  datatype Request = Request(url: string, httpMethod: string, mode: string, cache: string)

  /** An observable side effect: a request handed to `fetch`, or an `alert`. */
  datatype Effect = Issue(request: Request) | Alert(message: string)

  /** The boolean the returned promise resolves to, and the effects in order. */
  datatype Run = Run(result: bool, effects: seq<Effect>)

  /** Why the try block was left through its catch clause. */
  datatype Fault = TransportFault | StatusFault(message: string)

  /** How the try block ended: falling through to the success alert, or throwing. */
  datatype Completion = Normal | Threw(fault: Fault)

  /** The request sent to a hook. */
  function PostRequest(hook: string): Request {
    Request(hook, "POST", "no-cors", "no-cache")
  }

  /** The messages shown, in order. */
  function Alerts(effects: seq<Effect>): seq<string> {
    if |effects| == 0 then []
    else if effects[0].Alert? then [effects[0].message] + Alerts(effects[1..])
    else Alerts(effects[1..])
  }

  /** The requests issued, in order. */
  function Requests(effects: seq<Effect>): seq<Request> {
    if |effects| == 0 then []
    else if effects[0].Issue? then [effects[0].request] + Requests(effects[1..])
    else Requests(effects[1..])
  }

  /** The trace of a run that reached the network: one request, then one alert. */
  lemma RequestThenAlert(request: Request, message: string)
    ensures Requests([Issue(request), Alert(message)]) == [request]
    ensures Alerts([Issue(request), Alert(message)]) == [message]
  {
    var trace := [Issue(request), Alert(message)];
    assert trace[1..] == [Alert(message)];
    assert trace[1..][1..] == [];
    assert Requests(trace[1..]) == Requests(trace[1..][1..]) == [];
    assert Alerts(trace[1..]) == [message] + Alerts(trace[1..][1..]) == [message];
  }

  /** The deploy is reported as triggered when a response arrived that is either
      `ok` or opaque; an opaque response is taken as receipt whatever its `ok`. */
  predicate Accepted(outcome: Outcome) {
    outcome.Resolved? && (outcome.ok || outcome.responseType == OpaqueType)
  }

  /** The try block after the request is issued: a rejected `fetch` throws out
      of the `await`, and a resolved response that is neither `ok` nor opaque
      is turned into a thrown error. */
  function Attempt(outcome: Outcome): (c: Completion)
    ensures c.Normal? <==> Accepted(outcome)
    ensures outcome.Rejected? ==> c == Threw(TransportFault)
    ensures outcome.Resolved? && !Accepted(outcome) ==> c == Threw(StatusFault(StatusErrorText))
  {
    match outcome
    case Rejected => Threw(TransportFault)
    case Resolved(ok, responseType) =>
      if !ok && responseType != OpaqueType then Threw(StatusFault(StatusErrorText))
      else Normal
  }

  /** `handleDeploy(site)` against a transport that settles as `outcome`. */
  function HandleDeploy(site: Site, outcome: Outcome): (run: Run)
    // Without a hook: the one alert, no request, false; the transport is never consulted.
    ensures !HasHook(site) ==> run == Run(false, [Alert(NoHookMessage)])
    // With a hook: exactly one request, to the hook, before the one alert.
    ensures HasHook(site) ==>
      |run.effects| == 2 && run.effects[0] == Issue(Request(site.deployHook.value, "POST", "no-cors", "no-cache"))
    ensures Requests(run.effects) == if HasHook(site) then [PostRequest(site.deployHook.value)] else []
    // The decision: true exactly for a hook whose request was accepted.
    ensures run.result <==> HasHook(site) && Accepted(outcome)
    // Every run ends with exactly one alert, the success one exactly when the result is true.
    ensures |Alerts(run.effects)| == 1 && run.effects[|run.effects| - 1] == Alert(Alerts(run.effects)[0])
    ensures run.result <==> Alerts(run.effects)[0] == SuccessMessage
    ensures HasHook(site) && !run.result ==> Alerts(run.effects) == [ErrorMessage]
  {
    if !HasHook(site) then
      Run(false, [Alert(NoHookMessage)])
    else
      var request := PostRequest(site.deployHook.value);
      RequestThenAlert(request, SuccessMessage);
      RequestThenAlert(request, ErrorMessage);
      match Attempt(outcome)
      case Normal => Run(true, [Issue(request), Alert(SuccessMessage)])
      case Threw(_) => Run(false, [Issue(request), Alert(ErrorMessage)])
  }

  /** Without a hook nothing depends on the transport. */
  lemma NoHookIgnoresTransport(site: Site, o1: Outcome, o2: Outcome)
    requires !HasHook(site)
    ensures HandleDeploy(site, o1) == HandleDeploy(site, o2)
    ensures Requests(HandleDeploy(site, o1).effects) == []
  {
  }

  /** An opaque response succeeds whatever its `ok` flag says. */
  lemma OpaqueIgnoresOk(site: Site, ok: bool)
    requires HasHook(site)
    ensures HandleDeploy(site, Resolved(ok, OpaqueType)) == HandleDeploy(site, Resolved(true, "basic"))
    ensures HandleDeploy(site, Resolved(ok, OpaqueType)).result
  {
  }

  /** A rejected fetch and a readable non-ok response end the same way. */
  lemma FailuresAreIndistinguishable(site: Site, responseType: string)
    requires HasHook(site) && responseType != OpaqueType
    ensures HandleDeploy(site, Resolved(false, responseType)) == HandleDeploy(site, Rejected)
    ensures Alerts(HandleDeploy(site, Rejected).effects) == [ErrorMessage]
  {
  }

  /** The three messages are distinct, so the alert alone tells the caller which
      branch was taken, and the result can be read back from it. */
  lemma MessageDeterminesBranch(site: Site, outcome: Outcome)
    ensures var m := Alerts(HandleDeploy(site, outcome).effects)[0];
      && (m == NoHookMessage <==> !HasHook(site))
      && (m == SuccessMessage <==> HasHook(site) && Accepted(outcome))
      && (m == ErrorMessage <==> HasHook(site) && !Accepted(outcome))
  {
  }
}
