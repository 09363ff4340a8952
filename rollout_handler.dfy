/**
 * The rollout endpoint (api/v1/rollout.go): the handler's ordered steps with
 * early exits, and the mapping of validated traffic rules to the domain.
 *
 * The HTTP context, the environment service and the rollout service are
 * reduced to the outcomes they hand back; the calls the handler makes are
 * returned as a trace so that their order, and their absence, can be stated.
 */
module RolloutHandler {
  import opened Wrappers
  import opened Core
  import Decimal
  import RV = RolloutValidation

  const NoChangesMessage := "No changes to rollout"
  const InvalidRequestMessage := "Invalid rollout request"
  const StatusOK := 200

  datatype NamespacedName = NamespacedName(name: string, namespace: string)

  /** What the rollout service's UpdateTraffic can fail with. */
  datatype UpdateError = ErrNoChanges | UpdateFailed(cause: string)

  /** An error the handler returns to the HTTP layer. */
  datatype HandlerError =
    | NotDeployable(cause: string)
    | BindFailed(cause: string)
    | ValidationError(message: string, errors: seq<RV.FieldError>)
    | ServiceFailed(cause: string)

  /** How the handler ends: an error, a JSON body it writes itself, or nil. */
  datatype Response = ReturnedError(error: HandlerError) | Json(status: int, message: string) | Done

  /** The collaborator calls the handler makes, in order. */
  datatype Call =
    | ValidateDeployable(envName: string)
    | Bind
    | UpdateTraffic(deployment: NamespacedName, envName: string, traffic: TrafficConfig)

  /** The revision name derived for a rule: the deployment name, a dash, the decimal revision. */
  function RevisionName(deploymentName: string, riserRevision: Int64): (name: string)
    ensures |name| > |deploymentName| + 1 && name[..|deploymentName| + 1] == deploymentName + "-"
  {
    deploymentName + "-" + Decimal.IntToDecimal(riserRevision)
  }

  /** What follows "<deployment>-" in a revision name reads back as the revision, sign included. */
  lemma RevisionNameParsesBack(deploymentName: string, riserRevision: Int64)
    ensures var digits := RevisionName(deploymentName, riserRevision)[|deploymentName| + 1..];
      riserRevision >= 0 ==> Decimal.IsDigits(digits) && Decimal.DecimalValue(digits) == riserRevision
    ensures var digits := RevisionName(deploymentName, riserRevision)[|deploymentName| + 2..];
      riserRevision < 0 ==>
        && RevisionName(deploymentName, riserRevision)[|deploymentName| + 1] == '-'
        && Decimal.IsDigits(digits) && Decimal.DecimalValue(digits) == -(riserRevision as int)
  {
    var text := Decimal.IntToDecimal(riserRevision);
    assert RevisionName(deploymentName, riserRevision)[|deploymentName| + 1..] == text;
    if riserRevision >= 0 {
      Decimal.DecimalRoundTrip(riserRevision);
    } else {
      assert text[1..] == RevisionName(deploymentName, riserRevision)[|deploymentName| + 2..];
      Decimal.DecimalRoundTrip(-(riserRevision as int));
    }
  }

  function DomainRule(deploymentName: string, rule: RV.TrafficRule): TrafficConfigRule
  {
    TrafficConfigRule(rule.riserRevision, RevisionName(deploymentName, rule.riserRevision), rule.percent)
  }

  /** cfg holds one domain rule per input rule, in the same order. */
  predicate IsDomainTraffic(deploymentName: string, traffic: seq<RV.TrafficRule>, cfg: TrafficConfig)
  {
    |cfg| == |traffic| && forall i :: 0 <= i < |traffic| ==> cfg[i] == DomainRule(deploymentName, traffic[i])
  }

  /** mapTrafficRulesToDomain: copies revision and percent, derives the revision name. */
  method MapTrafficRulesToDomain(deploymentName: string, traffic: seq<RV.TrafficRule>) returns (out: TrafficConfig)
    ensures |out| == |traffic|
    ensures forall i :: 0 <= i < |traffic| ==>
      && out[i].riserRevision == traffic[i].riserRevision
      && out[i].percent == traffic[i].percent
      && out[i].revisionName == deploymentName + "-" + Decimal.IntToDecimal(traffic[i].riserRevision)
    ensures IsDomainTraffic(deploymentName, traffic, out)
  {
    out := [];
    for i := 0 to |traffic|
      invariant IsDomainTraffic(deploymentName, traffic[..i], out)
    {
      var rule := traffic[i];
      out := out + [TrafficConfigRule(rule.riserRevision, RevisionName(deploymentName, rule.riserRevision), rule.percent)];
    }
    assert traffic[..|traffic|] == traffic;
  }

  /** Within one deployment, distinct revisions get distinct revision names. */
  lemma RevisionNameInjective(deploymentName: string, a: Int64, b: Int64)
    ensures RevisionName(deploymentName, a) == RevisionName(deploymentName, b) ==> a == b
  {
    var n := |deploymentName| + 1;
    if RevisionName(deploymentName, a) == RevisionName(deploymentName, b) {
      assert RevisionName(deploymentName, a)[n..] == Decimal.IntToDecimal(a);
      assert RevisionName(deploymentName, b)[n..] == Decimal.IntToDecimal(b);
      Decimal.IntToDecimalInjective(a, b);
    }
  }

  /**
   * A request that validates maps to a traffic config whose revision names
   * are pairwise distinct.
   */
  lemma ValidatedTrafficHasDistinctNames(deploymentName: string, traffic: seq<RV.TrafficRule>, cfg: TrafficConfig)
    requires RV.ValidationErrors(traffic) == []
    requires IsDomainTraffic(deploymentName, traffic, cfg)
    ensures forall i, j :: 0 <= i < j < |cfg| ==> cfg[i].revisionName != cfg[j].revisionName
  {
    RV.NoErrorsIff(traffic);
    forall i, j | 0 <= i < j < |cfg|
      ensures cfg[i].revisionName != cfg[j].revisionName
    {
      RevisionNameInjective(deploymentName, traffic[i].riserRevision, traffic[j].riserRevision);
    }
  }

  lemma RevisionNameExample()
    ensures RevisionName("mydep", 1) == "mydep-1"
    ensures RevisionName("mydep", 12) == "mydep-12"
  {
    assert Decimal.NatToDecimal(12) == Decimal.NatToDecimal(1) + [Decimal.DigitChar(2)];
  }

  /**
   * PutRollout. The environment is checked before the body is bound; a bind
   * failure or an invalid request returns before the rollout service is
   * called; the service's "no changes" becomes a 200 with a message.
   *
   * envCheck is ValidateDeployable's error, bound what Bind produced, and
   * updateTraffic what UpdateTraffic returns for the arguments it is given.
   */
  method PutRollout(
    deploymentName: string, namespace: string, envName: string,
    envCheck: Option<string>,
    bound: Result<RV.RolloutRequest, string>,
    updateTraffic: (NamespacedName, string, TrafficConfig) -> Option<UpdateError>)
    returns (response: Response, calls: seq<Call>)
    ensures |calls| >= 1 && calls[0] == ValidateDeployable(envName)
    ensures envCheck.Some? ==> calls == [ValidateDeployable(envName)] && response == ReturnedError(NotDeployable(envCheck.value))
    ensures envCheck.None? && bound.Failure? ==>
      calls == [ValidateDeployable(envName), Bind] && response == ReturnedError(BindFailed(bound.error))
    ensures envCheck.None? && bound.Success? && RV.ValidationErrors(bound.value.traffic) != [] ==>
      && calls == [ValidateDeployable(envName), Bind]
      && response == ReturnedError(ValidationError(InvalidRequestMessage, RV.ValidationErrors(bound.value.traffic)))
    ensures envCheck.None? && bound.Success? && RV.ValidationErrors(bound.value.traffic) == [] ==>
      && |calls| == 3 && calls[..2] == [ValidateDeployable(envName), Bind]
      && calls[2].UpdateTraffic?
      && calls[2].deployment == NamespacedName(deploymentName, namespace) && calls[2].envName == envName
      && IsDomainTraffic(deploymentName, bound.value.traffic, calls[2].traffic)
      && response == match updateTraffic(calls[2].deployment, envName, calls[2].traffic)
                     case None => Done
                     case Some(ErrNoChanges) => Json(StatusOK, NoChangesMessage)
                     case Some(UpdateFailed(cause)) => ReturnedError(ServiceFailed(cause))
    ensures (exists k :: 0 <= k < |calls| && calls[k].UpdateTraffic?) ==>
      envCheck.None? && bound.Success? && RV.ValidationErrors(bound.value.traffic) == []
  {
    calls := [ValidateDeployable(envName)];
    if envCheck.Some? {
      return ReturnedError(NotDeployable(envCheck.value)), calls;
    }
    calls := calls + [Bind];
    if bound.Failure? {
      return ReturnedError(BindFailed(bound.error)), calls;
    }
    var request := bound.value;
    var errs := RV.Validate(request);
    if errs != [] {
      return ReturnedError(ValidationError(InvalidRequestMessage, errs)), calls;
    }
    var traffic := MapTrafficRulesToDomain(deploymentName, request.traffic);
    var name := NamespacedName(deploymentName, namespace);
    calls := calls + [UpdateTraffic(name, envName, traffic)];
    var err := updateTraffic(name, envName, traffic);
    if err.Some? {
      if err.value == ErrNoChanges {
        return Json(StatusOK, NoChangesMessage), calls;
      }
      return ReturnedError(ServiceFailed(err.value.cause)), calls;
    }
    return Done, calls;
  }
}
