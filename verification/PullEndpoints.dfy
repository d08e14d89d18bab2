/** Pulling an image: falling back from one registry endpoint to the next. */
module PullEndpoints {
  import opened Values

  datatype Endpoint = Endpoint(version: int, https: bool, host: string)

  /** An error of an attempt: the endpoint does not support the operation, or something else went wrong. */
  datatype PullError = NoSupport(message: string) | Other(message: string)

  datatype Error = Failed(error: PullError) | UnknownVersion(version: int) | NoEndpoints {
    predicate Proper() {
      Failed? && error.Other?
    }

    predicate Unsupported() {
      Failed? && error.NoSupport?
    }
  }

  /** What trying an endpoint leads to; `Aborted` is an error that ends the pull (or a cancelled pull). */
  datatype Outcome =
    | Pulled
    | FellBack(error: PullError, confirmedV2: bool, transportOK: bool)
    | Aborted(error: PullError)

  /** An endpoint together with the outcome of trying it. */
  datatype Site = Site(endpoint: Endpoint, outcome: Outcome) {
    predicate Buildable() {
      endpoint.version == 1 || endpoint.version == 2
    }

    predicate ConfirmsV2() {
      outcome.FellBack? && outcome.confirmedV2
    }

    predicate ConfirmsTLS() {
      outcome.FellBack? && outcome.transportOK && endpoint.https
    }
  }

  /** What became of an endpoint: ruled out, of unknown version, or tried. */
  datatype Visit = Skipped | Unbuildable | Tried

  /** Has an attempt confirmed that a v2 registry is there? */
  ghost predicate ConfirmedV2(sites: seq<Site>, trace: seq<Visit>)
    requires |trace| <= |sites|
  {
    var k := |trace| - 1;
    trace != [] && (ConfirmedV2(sites, trace[..k]) || (trace[k].Tried? && sites[k].ConfirmsV2()))
  }

  /** The hosts that attempts have confirmed to use TLS. */
  ghost function ConfirmedTLS(sites: seq<Site>, trace: seq<Visit>): set<string>
    requires |trace| <= |sites|
  {
    var k := |trace| - 1;
    if trace == [] then {}
    else
      ConfirmedTLS(sites, trace[..k]) +
      if trace[k].Tried? && sites[k].ConfirmsTLS() then {sites[k].endpoint.host} else {}
  }

  /** What is due to the next endpoint, after the given trace. */
  ghost function Due(sites: seq<Site>, trace: seq<Visit>): Visit
    requires |trace| < |sites|
  {
    var e := sites[|trace|].endpoint;
    if e.version == 1 && ConfirmedV2(sites, trace) then Skipped
    else if !e.https && e.host in ConfirmedTLS(sites, trace) then Skipped
    else if sites[|trace|].Buildable() then Tried
    else Unbuildable
  }

  /** Every endpoint looked at got what was due to it. */
  ghost predicate Traced(sites: seq<Site>, trace: seq<Visit>) {
    |trace| <= |sites| &&
    (trace != [] ==> Traced(sites, trace[..|trace| - 1]) && trace[|trace| - 1] == Due(sites, trace[..|trace| - 1]))
  }

  /** The errors one endpoint contributes. */
  function ErrorsAt(site: Site, visit: Visit): seq<Error> {
    match visit
    case Skipped => []
    case Unbuildable => [UnknownVersion(site.endpoint.version)]
    case Tried => if site.outcome.Pulled? then [] else [Failed(site.outcome.error)]
  }

  /** The errors met along the trace. */
  ghost function Errors(sites: seq<Site>, trace: seq<Visit>): seq<Error>
    requires |trace| <= |sites|
  {
    var k := |trace| - 1;
    if trace == [] then [] else Errors(sites, trace[..k]) + ErrorsAt(sites[k], trace[k])
  }

  predicate HasProper(errors: seq<Error>) {
    errors != [] && (HasProper(errors[..|errors| - 1]) || errors[|errors| - 1].Proper())
  }

  /** The error worth reporting: later "not supported" errors do not replace a proper one. */
  function Reported(errors: seq<Error>): Option<Error> {
    if errors == [] then None
    else
      var init, last := errors[..|errors| - 1], errors[|errors| - 1];
      if last.Unsupported() && HasProper(init) then Reported(init) else Some(last)
  }

  // ---------------------------------------------------------------------------

  lemma TraceGrows(sites: seq<Site>, trace: seq<Visit>, k: nat)
    requires Traced(sites, trace) && |trace| == k < |sites|
    ensures var visit := Due(sites, trace);
            var longer := trace + [visit];
            && Traced(sites, longer)
            && ConfirmedV2(sites, longer) == (ConfirmedV2(sites, trace) || (visit.Tried? && sites[k].ConfirmsV2()))
            && ConfirmedTLS(sites, longer) == ConfirmedTLS(sites, trace) +
                 (if visit.Tried? && sites[k].ConfirmsTLS() then {sites[k].endpoint.host} else {})
            && Errors(sites, longer) == Errors(sites, trace) + ErrorsAt(sites[k], visit)
  {
    var longer := trace + [Due(sites, trace)];
    assert longer[..|longer| - 1] == trace;
  }

  lemma ErrorsGrow(errors: seq<Error>, e: Error)
    ensures HasProper(errors + [e]) == (HasProper(errors) || e.Proper())
    ensures Reported(errors + [e]) == if e.Unsupported() && HasProper(errors) then Reported(errors) else Some(e)
  {
    assert (errors + [e])[..|errors + [e]| - 1] == errors;
  }

  lemma {:induction false} TracedAt(sites: seq<Site>, trace: seq<Visit>, j: nat)
    requires Traced(sites, trace) && j < |trace|
    ensures trace[j] == Due(sites, trace[..j])
  {
    if j < |trace| - 1 {
      TracedAt(sites, trace[..|trace| - 1], j);
      assert trace[..|trace| - 1][..j] == trace[..j];
    }
  }

  lemma {:induction false} ConfirmationsStay(sites: seq<Site>, trace: seq<Visit>, i: nat)
    requires i < |trace| <= |sites| && trace[i].Tried?
    ensures sites[i].ConfirmsV2() ==> ConfirmedV2(sites, trace)
    ensures sites[i].ConfirmsTLS() ==> sites[i].endpoint.host in ConfirmedTLS(sites, trace)
  {
    if i < |trace| - 1 {
      ConfirmationsStay(sites, trace[..|trace| - 1], i);
    }
  }

  /** No v1 endpoint is tried after a confirmed v2 attempt, and no plaintext one for a host confirmed to use TLS. */
  lemma NoDowngrade(sites: seq<Site>, trace: seq<Visit>, i: nat, j: nat)
    requires Traced(sites, trace) && i < j < |trace| && trace[i].Tried? && trace[j].Tried?
    ensures sites[i].outcome.FellBack? && sites[i].outcome.confirmedV2 ==> sites[j].endpoint.version == 2
    ensures (&& sites[i].outcome.FellBack? && sites[i].outcome.transportOK && sites[i].endpoint.https
             && sites[i].endpoint.host == sites[j].endpoint.host)
            ==> sites[j].endpoint.https
  {
    ConfirmationsStay(sites, trace[..j], i);
    TracedAt(sites, trace, j);
  }

  /** The attempt rules the endpoint out: it found a v2 registry, or a working connection over TLS to the same host. */
  predicate RulesOut(site: Site, e: Endpoint) {
    && site.outcome.FellBack?
    && (|| (e.version == 1 && site.outcome.confirmedV2)
        || (!e.https && site.outcome.transportOK && site.endpoint.https && site.endpoint.host == e.host))
  }

  /** An endpoint is skipped exactly when an earlier attempt rules it out; otherwise it is tried if its version is
      known. */
  lemma VisitedIff(sites: seq<Site>, trace: seq<Visit>, j: nat)
    requires Traced(sites, trace) && j < |trace|
    ensures trace[j].Skipped? <==>
            exists i :: 0 <= i < j && trace[i].Tried? && RulesOut(sites[i], sites[j].endpoint)
    ensures trace[j].Tried? <==> !trace[j].Skipped? && sites[j].endpoint.version in {1, 2}
  {
    TracedAt(sites, trace, j);
    if trace[j].Skipped? {
      SkippedForCause(sites, trace, j);
    } else {
      forall i | 0 <= i < j && trace[i].Tried?
        ensures !RulesOut(sites[i], sites[j].endpoint)
      {
        ConfirmationsStay(sites, trace[..j], i);
      }
    }
  }

  lemma SkippedForCause(sites: seq<Site>, trace: seq<Visit>, j: nat)
    requires Traced(sites, trace) && j < |trace| && trace[j].Skipped?
    ensures exists i :: 0 <= i < j && trace[i].Tried? && RulesOut(sites[i], sites[j].endpoint)
  {
    TracedAt(sites, trace, j);
    if sites[j].endpoint.version == 1 && ConfirmedV2(sites, trace[..j]) {
      var i := WhoConfirmedV2(sites, trace[..j]);
      assert trace[i].Tried?;
    } else {
      var i := WhoConfirmedTLS(sites, trace[..j], sites[j].endpoint.host);
      assert trace[i].Tried?;
    }
  }

  lemma {:induction false} WhoConfirmedV2(sites: seq<Site>, trace: seq<Visit>) returns (i: nat)
    requires |trace| <= |sites| && ConfirmedV2(sites, trace)
    ensures i < |trace| && trace[i].Tried? && sites[i].ConfirmsV2()
  {
    var k := |trace| - 1;
    if trace[k].Tried? && sites[k].ConfirmsV2() {
      i := k;
    } else {
      i := WhoConfirmedV2(sites, trace[..k]);
    }
  }

  lemma {:induction false} WhoConfirmedTLS(sites: seq<Site>, trace: seq<Visit>, host: string) returns (i: nat)
    requires |trace| <= |sites| && host in ConfirmedTLS(sites, trace)
    ensures i < |trace| && trace[i].Tried? && sites[i].ConfirmsTLS() && sites[i].endpoint.host == host
  {
    var k := |trace| - 1;
    if trace[k].Tried? && sites[k].ConfirmsTLS() && sites[k].endpoint.host == host {
      i := k;
    } else {
      i := WhoConfirmedTLS(sites, trace[..k], host);
    }
  }

  /** A "not supported" error after a proper one. */
  ghost predicate Discarded(errors: seq<Error>, i: nat)
    requires i < |errors|
  {
    errors[i].Unsupported() && exists k :: 0 <= k < i && errors[k].Proper()
  }

  /** The error reported is the last one that is not discarded, whatever errors were met. */
  lemma {:induction false} ReportedLastKept(errors: seq<Error>) returns (i: nat)
    requires errors != []
    ensures i < |errors| && Reported(errors) == Some(errors[i]) && !Discarded(errors, i)
    ensures forall j :: i < j < |errors| ==> Discarded(errors, j)
  {
    var init, last := errors[..|errors| - 1], |errors| - 1;
    ProperMeaning(init);
    assert forall j :: 0 <= j < last ==> init[j] == errors[j];
    if errors[last].Unsupported() && HasProper(init) {
      i := ReportedLastKept(init);
      forall j | 0 <= j < last
        ensures Discarded(errors, j) <==> Discarded(init, j)
      {
      }
      assert Discarded(errors, last);
    } else {
      i := last;
    }
  }

  /** Among fall-back errors the last proper one is reported, or the last "not supported" when there is no other. */
  lemma {:induction false} ReportedMeaning(errors: seq<Error>)
    requires errors != [] && forall e :: e in errors ==> e.Failed?
    ensures Reported(errors).Some?
    ensures if exists e :: e in errors && e.Proper() then
              exists i :: 0 <= i < |errors| && errors[i] == Reported(errors).value && errors[i].Proper() &&
                          forall j :: i < j < |errors| ==> errors[j].Unsupported()
            else Reported(errors).value == errors[|errors| - 1]
  {
    var init, last := errors[..|errors| - 1], errors[|errors| - 1];
    ProperMeaning(init);
    assert forall e :: e in errors <==> e in init || e == last;
    if last.Unsupported() && HasProper(init) {
      ReportedMeaning(init);
      var i :| 0 <= i < |init| && init[i] == Reported(init).value && init[i].Proper() &&
               forall j :: i < j < |init| ==> init[j].Unsupported();
      assert errors[i] == init[i];
      assert forall j :: i < j < |errors| ==> errors[j] == (if j < |init| then init[j] else last);
    } else if last.Proper() {
      assert errors[|errors| - 1] == Reported(errors).value;
    }
  }

  lemma {:induction false} ProperMeaning(errors: seq<Error>)
    ensures HasProper(errors) <==> exists e :: e in errors && e.Proper()
  {
    if errors != [] {
      ProperMeaning(errors[..|errors| - 1]);
      assert forall e :: e in errors <==> e in errors[..|errors| - 1] || e == errors[|errors| - 1];
    }
  }

  /** An attempt that says no more than "not supported", after one that had something to say. */
  ghost predicate Silenced(sites: seq<Site>, trace: seq<Visit>, k: nat)
    requires k < |trace| <= |sites|
  {
    && trace[k].Tried? && sites[k].outcome.FellBack? && sites[k].outcome.error.NoSupport?
    && exists i :: 0 <= i < k && trace[i].Tried? && sites[i].outcome.FellBack? && sites[i].outcome.error.Other?
  }

  /** The last endpoint whose error counts. */
  ghost predicate LastHeard(sites: seq<Site>, trace: seq<Visit>, k: nat)
    requires k < |trace| <= |sites|
  {
    && !trace[k].Skipped? && !Silenced(sites, trace, k)
    && forall j :: k < j < |trace| ==> trace[j].Skipped? || Silenced(sites, trace, j)
  }

  /** What is reported when no attempt decided: the error of the last endpoint whose error counts. */
  ghost predicate Explained(sites: seq<Site>, trace: seq<Visit>, failure: Option<Error>)
    requires |trace| <= |sites|
  {
    if forall k :: 0 <= k < |trace| ==> trace[k].Skipped? then failure == Some(NoEndpoints)
    else exists k :: 0 <= k < |trace| && LastHeard(sites, trace, k) && Says(sites[k], failure)
  }

  /** The failure is the error of the endpoint: of the attempt, or that its version is not known. */
  ghost predicate Says(site: Site, failure: Option<Error>) {
    if site.endpoint.version in {1, 2} then
      !site.outcome.Pulled? && failure == Some(Failed(site.outcome.error))
    else failure == Some(UnknownVersion(site.endpoint.version))
  }

  /** One of the first `n` attempts had something to say. */
  ghost predicate Heard(sites: seq<Site>, trace: seq<Visit>, n: nat)
    requires n <= |trace| <= |sites|
  {
    exists i :: 0 <= i < n && trace[i].Tried? && sites[i].outcome.FellBack? && sites[i].outcome.error.Other?
  }

  lemma ErrorsMore(sites: seq<Site>, trace: seq<Visit>, k: nat)
    requires k < |trace| <= |sites|
    ensures Errors(sites, trace[..k + 1]) == Errors(sites, trace[..k]) + ErrorsAt(sites[k], trace[k])
  {
    assert trace[..k + 1][..k] == trace[..k];
  }

  lemma ProperMore(errors: seq<Error>, site: Site, visit: Visit)
    ensures HasProper(errors + ErrorsAt(site, visit)) <==>
            HasProper(errors) || (visit.Tried? && !site.outcome.Pulled? && site.outcome.error.Other?)
  {
    if ErrorsAt(site, visit) == [] {
      assert errors + [] == errors;
    } else {
      ErrorsGrow(errors, ErrorsAt(site, visit)[0]);
    }
  }

  lemma HeardMore(sites: seq<Site>, trace: seq<Visit>, k: nat)
    requires k < |trace| <= |sites| && AllFellBack(sites, trace)
    ensures Heard(sites, trace, k + 1) <==>
            Heard(sites, trace, k) || (trace[k].Tried? && !sites[k].outcome.Pulled? && sites[k].outcome.error.Other?)
  {
  }

  lemma {:induction false} ProperAt(sites: seq<Site>, trace: seq<Visit>, n: nat)
    requires n <= |trace| <= |sites| && AllFellBack(sites, trace)
    ensures HasProper(Errors(sites, trace[..n])) <==> Heard(sites, trace, n)
  {
    if n > 0 {
      ProperAt(sites, trace, n - 1);
      ErrorsMore(sites, trace, n - 1);
      ProperMore(Errors(sites, trace[..n - 1]), sites[n - 1], trace[n - 1]);
      HeardMore(sites, trace, n - 1);
    }
  }

  /** What one more endpoint does to the error worth reporting. */
  lemma ReportedMore(sites: seq<Site>, trace: seq<Visit>)
    requires Traced(sites, trace) && AllFellBack(sites, trace) && trace != []
    ensures var k := |trace| - 1;
            var errors := Errors(sites, trace[..k]);
            Reported(Errors(sites, trace)) ==
            match trace[k]
            case Skipped => Reported(errors)
            case Unbuildable => Some(UnknownVersion(sites[k].endpoint.version))
            case Tried =>
              if sites[k].outcome.error.NoSupport? && HasProper(errors) then Reported(errors)
              else Some(Failed(sites[k].outcome.error))
  {
    var k := |trace| - 1;
    var errors := Errors(sites, trace[..k]);
    match trace[k]
    case Skipped =>
      assert errors + [] == errors;
    case Unbuildable =>
      ErrorsGrow(errors, UnknownVersion(sites[k].endpoint.version));
    case Tried =>
      ErrorsGrow(errors, Failed(sites[k].outcome.error));
  }

  function OrNoEndpoints(reported: Option<Error>): Option<Error> {
    if reported.None? then Some(NoEndpoints) else reported
  }

  /** An endpoint that is skipped or silenced changes nothing about what is reported; any other one is what is. */
  lemma ExplainedMore(sites: seq<Site>, trace: seq<Visit>, before: Option<Error>, after: Option<Error>)
    requires 0 < |trace| <= |sites| && Explained(sites, trace[..|trace| - 1], before)
    requires var k := |trace| - 1;
             if trace[k].Skipped? || Silenced(sites, trace, k) then after == before else Says(sites[k], after)
    ensures Explained(sites, trace, after)
  {
    var init, last := trace[..|trace| - 1], |trace| - 1;
    assert forall i :: 0 <= i < last ==> init[i] == trace[i];
    if trace[last].Skipped? || Silenced(sites, trace, last) {
      assert forall i :: 0 <= i < last ==> (Silenced(sites, init, i) <==> Silenced(sites, trace, i));
      if !(forall k :: 0 <= k < last ==> init[k].Skipped?) {
        var k :| 0 <= k < last && LastHeard(sites, init, k) && Says(sites[k], before);
        assert LastHeard(sites, trace, k);
      }
    } else {
      assert LastHeard(sites, trace, last);
    }
  }

  /** The error worth reporting is that of the last endpoint whose error counts. */
  lemma {:induction false} ReportedAt(sites: seq<Site>, trace: seq<Visit>)
    requires Traced(sites, trace) && AllFellBack(sites, trace)
    ensures Explained(sites, trace, OrNoEndpoints(Reported(Errors(sites, trace))))
  {
    if trace != [] {
      var init := trace[..|trace| - 1];
      var before, after := Reported(Errors(sites, init)), Reported(Errors(sites, trace));
      ReportedAt(sites, init);
      ReportedStep(sites, trace);
      ExplainedMore(sites, trace, OrNoEndpoints(before), OrNoEndpoints(after));
    }
  }

  lemma ReportedStep(sites: seq<Site>, trace: seq<Visit>)
    requires Traced(sites, trace) && AllFellBack(sites, trace) && trace != []
    ensures var k := |trace| - 1;
            var before, after := Reported(Errors(sites, trace[..k])), Reported(Errors(sites, trace));
            if trace[k].Skipped? || Silenced(sites, trace, k) then after == before else Says(sites[k], after)
  {
    var k := |trace| - 1;
    ReportedMore(sites, trace);
    VisitedIff(sites, trace, k);
    ProperAt(sites, trace, k);
    SilencedIff(sites, trace, k);
  }

  lemma SilencedIff(sites: seq<Site>, trace: seq<Visit>, k: nat)
    requires k < |trace| <= |sites| && AllFellBack(sites, trace)
    ensures Silenced(sites, trace, k) <==>
            trace[k].Tried? && sites[k].outcome.error.NoSupport? && Heard(sites, trace, k)
  {
  }

  // ---------------------------------------------------------------------------

  /** How a pull ended: every attempt but the last fell back; the last one decided, or all endpoints were used up
      and the error worth reporting is returned. */
  ghost predicate Concluded(sites: seq<Site>, trace: seq<Visit>, failure: Option<Error>)
    requires |trace| <= |sites|
  {
    var n := |trace|;
    && (forall k :: 0 <= k < n - 1 && trace[k].Tried? ==> sites[k].outcome.FellBack?)
    && (failure.None? <==> n > 0 && trace[n - 1].Tried? && sites[n - 1].outcome.Pulled?)
    && if n > 0 && trace[n - 1].Tried? && sites[n - 1].outcome.Aborted? then
         failure == Some(Failed(sites[n - 1].outcome.error))
       else failure.Some? ==>
         && n == |sites|
         && failure == if Errors(sites, trace) == [] then Some(NoEndpoints) else Reported(Errors(sites, trace))
  }

  /** Keeps the error of a fall-back, unless it is a "not supported" after a proper one. */
  method Remember(ghost errors: seq<Error>, lastErr: Option<Error>, discard: bool, error: PullError)
    returns (lastErr': Option<Error>, discard': bool)
    requires lastErr == Reported(errors) && discard == HasProper(errors)
    ensures lastErr' == Reported(errors + [Failed(error)]) && discard' == HasProper(errors + [Failed(error)])
  {
    ErrorsGrow(errors, Failed(error));
    lastErr', discard' := lastErr, discard;
    if !error.NoSupport? {
      discard' := true;
      lastErr' := Some(Failed(error));
    } else if !discard {
      lastErr' := Some(Failed(error));
    }
  }

  /** What the loop over the endpoints remembers. */
  datatype Progress = Progress(
    lastErr: Option<Error>, discardNoSupportErrors: bool, confirmedV2: bool, confirmedTLS: set<string>)

  ghost predicate Remembers(sites: seq<Site>, trace: seq<Visit>, p: Progress) {
    && Traced(sites, trace)
    && p.lastErr == Reported(Errors(sites, trace)) && p.discardNoSupportErrors == HasProper(Errors(sites, trace))
    && p.confirmedV2 == ConfirmedV2(sites, trace) && p.confirmedTLS == ConfirmedTLS(sites, trace)
  }

  /** Looks at the next endpoint; the outcome is None unless it was tried. */
  method Look(sites: seq<Site>, k: nat, p: Progress, ghost trace: seq<Visit>)
    returns (q: Progress, outcome: Option<Outcome>)
    requires |trace| == k < |sites| && Remembers(sites, trace, p)
    ensures Traced(sites, trace + [Due(sites, trace)])
    ensures outcome == if Due(sites, trace).Tried? then Some(sites[k].outcome) else None
    ensures outcome.None? || outcome.value.FellBack? ==> Remembers(sites, trace + [Due(sites, trace)], q)
  {
    var site := sites[k];
    var e := site.endpoint;
    ghost var errors := Errors(sites, trace);
    assert errors + [] == errors;
    TraceGrows(sites, trace, k);
    q := p;
    if p.confirmedV2 && e.version == 1 {
      return q, None;
    }
    if !e.https && e.host in p.confirmedTLS {
      return q, None;
    }
    if !site.Buildable() {
      ErrorsGrow(errors, UnknownVersion(e.version));
      return q.(lastErr := Some(UnknownVersion(e.version))), None;
    }
    outcome := Some(site.outcome);
    if site.outcome.FellBack? {
      var lastErr, discard := Remember(errors, p.lastErr, p.discardNoSupportErrors, site.outcome.error);
      var tls := if site.outcome.transportOK && e.https then p.confirmedTLS + {e.host} else p.confirmedTLS;
      q := Progress(lastErr, discard, p.confirmedV2 || site.outcome.confirmedV2, tls);
    }
  }

  /** Every attempt so far fell back. */
  ghost predicate AllFellBack(sites: seq<Site>, trace: seq<Visit>)
    requires |trace| <= |sites|
  {
    forall i :: 0 <= i < |trace| && trace[i].Tried? ==> sites[i].outcome.FellBack?
  }

  /** The attempt at the next endpoint decides the pull. */
  lemma Decided(sites: seq<Site>, trace: seq<Visit>, k: nat)
    requires |trace| == k < |sites| && AllFellBack(sites, trace) && !sites[k].outcome.FellBack?
    ensures Concluded(sites, trace + [Tried],
                      if sites[k].outcome.Pulled? then None else Some(Failed(sites[k].outcome.error)))
  {
  }

  /** No endpoint is left. */
  lemma Exhausted(sites: seq<Site>, trace: seq<Visit>)
    requires |trace| == |sites| && AllFellBack(sites, trace)
    ensures var reported := Reported(Errors(sites, trace));
            Concluded(sites, trace, if reported.None? then Some(NoEndpoints) else reported)
  {
    ReportedSome(Errors(sites, trace));
  }

  /** Tries the endpoints in turn; `trace` records what became of each one looked at. */
  method Pull(sites: seq<Site>) returns (failure: Option<Error>, ghost trace: seq<Visit>)
    ensures Traced(sites, trace) && Concluded(sites, trace, failure)
    ensures AllFellBack(sites, trace) ==> Explained(sites, trace, failure)
  {
    var p := Progress(None, false, false, {});
    trace := [];
    for k := 0 to |sites|
      invariant |trace| == k && Remembers(sites, trace, p) && AllFellBack(sites, trace)
    {
      var q, outcome := Look(sites, k, p, trace);
      ghost var before := trace;
      trace := trace + [Due(sites, trace)];
      if outcome.Some? && outcome.value.Pulled? {
        Decided(sites, before, k);
        return None, trace;
      }
      if outcome.Some? && outcome.value.Aborted? {
        Decided(sites, before, k);
        return Some(Failed(outcome.value.error)), trace;
      }
      p := q;
    }
    Exhausted(sites, trace);
    ReportedAt(sites, trace);
    return if p.lastErr.None? then Some(NoEndpoints) else p.lastErr, trace;
  }

  lemma {:induction false} ReportedSome(errors: seq<Error>)
    ensures Reported(errors).None? <==> errors == []
  {
    if errors != [] {
      ReportedSome(errors[..|errors| - 1]);
    }
  }
}
