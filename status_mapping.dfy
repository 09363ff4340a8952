/**
 * The deployment status as the API presents it (package api/v1/model), and
 * the two mappings between it and the domain status of pkg/core: the one that
 * reports a deployment's status, and the one that stores a status reported
 * by a cluster.
 *
 * The API names the revision counters "generation" where the domain names
 * them "revision"; they are the same quantities.
 */
module StatusModel {
  import opened Wrappers
  import Core

  datatype StatusProblem = StatusProblem(count: int, message: string)

  datatype DeploymentRevisionStatus = DeploymentRevisionStatus(
    name: string,
    availableReplicas: Core.Int32,
    dockerImage: string,
    riserGeneration: Core.Int64,
    rolloutStatus: string,
    rolloutStatusReason: string,
    problems: seq<StatusProblem>)

  datatype DeploymentTrafficStatus = DeploymentTrafficStatus(
    percent: Option<Core.Int64>,
    revisionName: string,
    tag: string)

  /** The part of the status a cluster reports. */
  datatype DeploymentStatusMutable = DeploymentStatusMutable(
    observedRiserGeneration: Core.Int64,
    latestReadyRevisionName: string,
    latestCreatedRevisionName: string,
    revisions: seq<DeploymentRevisionStatus>,
    traffic: seq<DeploymentTrafficStatus>)

  /** The status of one deployment in one stage; `reported` is the embedded DeploymentStatusMutable. */
  datatype DeploymentStatus = DeploymentStatus(
    deploymentName: string,
    stageName: string,
    riserGeneration: Core.Int64,
    reported: DeploymentStatusMutable)

  /** The zero value of DeploymentStatusMutable: what a deployment without a status reports. */
  const NoReport := DeploymentStatusMutable(0, "", "", [], [])
}

module StatusMapping {
  import opened Wrappers
  import Core
  import Model = StatusModel

  // ---------------------------------------------------------------------
  // Element mappings

  function ProblemToModel(p: Core.StatusProblem): Model.StatusProblem
  {
    Model.StatusProblem(p.count, p.message)
  }

  function ProblemFromModel(p: Model.StatusProblem): Core.StatusProblem
  {
    Core.StatusProblem(p.count, p.message)
  }

  function TrafficToModel(t: Core.DeploymentTrafficStatus): Model.DeploymentTrafficStatus
  {
    Model.DeploymentTrafficStatus(t.percent, t.revisionName, t.tag)
  }

  function TrafficFromModel(t: Model.DeploymentTrafficStatus): Core.DeploymentTrafficStatus
  {
    Core.DeploymentTrafficStatus(t.percent, t.revisionName, t.tag)
  }

  // ---------------------------------------------------------------------
  // List mappings: same length, same order, every field copied

  function ProblemsToModel(ps: seq<Core.StatusProblem>): (r: seq<Model.StatusProblem>)
    ensures |r| == |ps|
    ensures forall i :: 0 <= i < |ps| ==> r[i].message == ps[i].message && r[i].count == ps[i].count
    decreases |ps|
  {
    if ps == [] then [] else [ProblemToModel(ps[0])] + ProblemsToModel(ps[1..])
  }

  function ProblemsFromModel(ps: seq<Model.StatusProblem>): (r: seq<Core.StatusProblem>)
    ensures |r| == |ps|
    ensures forall i :: 0 <= i < |ps| ==> r[i].message == ps[i].message && r[i].count == ps[i].count
    decreases |ps|
  {
    if ps == [] then [] else [ProblemFromModel(ps[0])] + ProblemsFromModel(ps[1..])
  }

  function TrafficListToModel(ts: seq<Core.DeploymentTrafficStatus>): (r: seq<Model.DeploymentTrafficStatus>)
    ensures |r| == |ts|
    ensures forall i :: 0 <= i < |ts| ==>
      r[i].revisionName == ts[i].revisionName && r[i].percent == ts[i].percent && r[i].tag == ts[i].tag
    decreases |ts|
  {
    if ts == [] then [] else [TrafficToModel(ts[0])] + TrafficListToModel(ts[1..])
  }

  function TrafficListFromModel(ts: seq<Model.DeploymentTrafficStatus>): (r: seq<Core.DeploymentTrafficStatus>)
    ensures |r| == |ts|
    ensures forall i :: 0 <= i < |ts| ==>
      r[i].revisionName == ts[i].revisionName && r[i].percent == ts[i].percent && r[i].tag == ts[i].tag
    decreases |ts|
  {
    if ts == [] then [] else [TrafficFromModel(ts[0])] + TrafficListFromModel(ts[1..])
  }

  function RevisionToModel(r: Core.DeploymentRevisionStatus): Model.DeploymentRevisionStatus
  {
    Model.DeploymentRevisionStatus(r.name, r.availableReplicas, r.dockerImage, r.riserRevision,
                                   r.rolloutStatus, r.rolloutStatusReason, ProblemsToModel(r.problems))
  }

  function RevisionFromModel(r: Model.DeploymentRevisionStatus): Core.DeploymentRevisionStatus
  {
    Core.DeploymentRevisionStatus(r.name, r.availableReplicas, r.dockerImage, r.riserGeneration,
                                  r.rolloutStatus, r.rolloutStatusReason, ProblemsFromModel(r.problems))
  }

  /** Revisions keep their order, and each its name, replicas, image, generation, rollout status and problems. */
  function RevisionsToModel(rs: seq<Core.DeploymentRevisionStatus>): (r: seq<Model.DeploymentRevisionStatus>)
    ensures |r| == |rs|
    ensures forall i :: 0 <= i < |rs| ==>
      && r[i].name == rs[i].name
      && r[i].availableReplicas == rs[i].availableReplicas
      && r[i].dockerImage == rs[i].dockerImage
      && r[i].riserGeneration == rs[i].riserRevision
      && r[i].rolloutStatus == rs[i].rolloutStatus
      && r[i].rolloutStatusReason == rs[i].rolloutStatusReason
      && |r[i].problems| == |rs[i].problems|
      && (forall j :: 0 <= j < |rs[i].problems| ==>
            r[i].problems[j].message == rs[i].problems[j].message && r[i].problems[j].count == rs[i].problems[j].count)
    decreases |rs|
  {
    if rs == [] then [] else [RevisionToModel(rs[0])] + RevisionsToModel(rs[1..])
  }

  function RevisionsFromModel(rs: seq<Model.DeploymentRevisionStatus>): (r: seq<Core.DeploymentRevisionStatus>)
    ensures |r| == |rs|
    ensures forall i :: 0 <= i < |rs| ==>
      && r[i].name == rs[i].name
      && r[i].availableReplicas == rs[i].availableReplicas
      && r[i].dockerImage == rs[i].dockerImage
      && r[i].riserRevision == rs[i].riserGeneration
      && r[i].rolloutStatus == rs[i].rolloutStatus
      && r[i].rolloutStatusReason == rs[i].rolloutStatusReason
      && |r[i].problems| == |rs[i].problems|
      && (forall j :: 0 <= j < |rs[i].problems| ==>
            r[i].problems[j].message == rs[i].problems[j].message && r[i].problems[j].count == rs[i].problems[j].count)
    decreases |rs|
  {
    if rs == [] then [] else [RevisionFromModel(rs[0])] + RevisionsFromModel(rs[1..])
  }

  // ---------------------------------------------------------------------
  // The two mappings

  /**
   * mapDeploymentToStatusModel: the deployment's identity always; its
   * reported status when it has one, and the zero report otherwise.
   */
  function MapDeploymentToStatusModel(d: Core.Deployment): (r: Model.DeploymentStatus)
    ensures r.deploymentName == d.name && r.stageName == d.stageName && r.riserGeneration == d.riserRevision
    ensures d.doc.status.None? ==> r.reported == Model.NoReport
    ensures d.doc.status.Some? ==>
      var s := d.doc.status.value;
      && r.reported.observedRiserGeneration == s.observedRiserRevision
      && r.reported.latestReadyRevisionName == s.latestReadyRevisionName
      && r.reported.latestCreatedRevisionName == s.latestCreatedRevisionName
      && r.reported.revisions == RevisionsToModel(s.revisions)
      && r.reported.traffic == TrafficListToModel(s.traffic)
  {
    var reported :=
      match d.doc.status
      case None => Model.NoReport
      case Some(s) =>
        Model.DeploymentStatusMutable(s.observedRiserRevision, s.latestReadyRevisionName, s.latestCreatedRevisionName,
                                      RevisionsToModel(s.revisions), TrafficListToModel(s.traffic));
    Model.DeploymentStatus(d.name, d.stageName, d.riserRevision, reported)
  }

  /** mapDeploymentStatusFromModel: the reported status, stamped with the time it was received. */
  function MapDeploymentStatusFromModel(m: Model.DeploymentStatusMutable, now: Core.Timestamp): (r: Core.DeploymentStatus)
    ensures r.lastUpdated == now
    ensures r.observedRiserRevision == m.observedRiserGeneration
    ensures r.latestReadyRevisionName == m.latestReadyRevisionName
    ensures r.latestCreatedRevisionName == m.latestCreatedRevisionName
    ensures r.revisions == RevisionsFromModel(m.revisions)
    ensures r.traffic == TrafficListFromModel(m.traffic)
  {
    Core.DeploymentStatus(m.observedRiserGeneration, now, RevisionsFromModel(m.revisions),
                          m.latestReadyRevisionName, m.latestCreatedRevisionName, TrafficListFromModel(m.traffic))
  }

  // ---------------------------------------------------------------------
  // The mappings are inverse to each other

  lemma {:induction false} ProblemsRoundTrip(ps: seq<Core.StatusProblem>)
    ensures ProblemsFromModel(ProblemsToModel(ps)) == ps
    decreases |ps|
  {
    if ps != [] {
      ProblemsRoundTrip(ps[1..]);
      assert ProblemsToModel(ps)[1..] == ProblemsToModel(ps[1..]);
    }
  }

  lemma {:induction false} ModelProblemsRoundTrip(ps: seq<Model.StatusProblem>)
    ensures ProblemsToModel(ProblemsFromModel(ps)) == ps
    decreases |ps|
  {
    if ps != [] {
      ModelProblemsRoundTrip(ps[1..]);
      assert ProblemsFromModel(ps)[1..] == ProblemsFromModel(ps[1..]);
    }
  }

  lemma {:induction false} TrafficRoundTrip(ts: seq<Core.DeploymentTrafficStatus>)
    ensures TrafficListFromModel(TrafficListToModel(ts)) == ts
    decreases |ts|
  {
    if ts != [] {
      TrafficRoundTrip(ts[1..]);
      assert TrafficListToModel(ts)[1..] == TrafficListToModel(ts[1..]);
    }
  }

  lemma {:induction false} ModelTrafficRoundTrip(ts: seq<Model.DeploymentTrafficStatus>)
    ensures TrafficListToModel(TrafficListFromModel(ts)) == ts
    decreases |ts|
  {
    if ts != [] {
      ModelTrafficRoundTrip(ts[1..]);
      assert TrafficListFromModel(ts)[1..] == TrafficListFromModel(ts[1..]);
    }
  }

  lemma {:induction false} RevisionsRoundTrip(rs: seq<Core.DeploymentRevisionStatus>)
    ensures RevisionsFromModel(RevisionsToModel(rs)) == rs
    decreases |rs|
  {
    if rs != [] {
      RevisionsRoundTrip(rs[1..]);
      ProblemsRoundTrip(rs[0].problems);
      assert RevisionsToModel(rs)[1..] == RevisionsToModel(rs[1..]);
    }
  }

  lemma {:induction false} ModelRevisionsRoundTrip(rs: seq<Model.DeploymentRevisionStatus>)
    ensures RevisionsToModel(RevisionsFromModel(rs)) == rs
    decreases |rs|
  {
    if rs != [] {
      ModelRevisionsRoundTrip(rs[1..]);
      ModelProblemsRoundTrip(rs[0].problems);
      assert RevisionsFromModel(rs)[1..] == RevisionsFromModel(rs[1..]);
    }
  }

  /**
   * Storing what a deployment reports gives back its status, except that the
   * time stamp becomes the time of storing.
   */
  lemma StoredReportIsStatus(d: Core.Deployment, now: Core.Timestamp)
    requires d.doc.status.Some?
    ensures MapDeploymentStatusFromModel(MapDeploymentToStatusModel(d).reported, now)
         == d.doc.status.value.(lastUpdated := now)
  {
    RevisionsRoundTrip(d.doc.status.value.revisions);
    TrafficRoundTrip(d.doc.status.value.traffic);
  }

  /** A stored report is reported back unchanged, together with the deployment's identity. */
  lemma ReportedStoredStatus(m: Model.DeploymentStatusMutable, now: Core.Timestamp, d: Core.Deployment)
    requires d.doc.status == Some(MapDeploymentStatusFromModel(m, now))
    ensures MapDeploymentToStatusModel(d) == Model.DeploymentStatus(d.name, d.stageName, d.riserRevision, m)
  {
    ModelRevisionsRoundTrip(m.revisions);
    ModelTrafficRoundTrip(m.traffic);
  }

  /** A deployment without a status maps, carrying its name and stage and nothing reported. */
  lemma NilStatusExample()
    ensures var d := Core.Deployment("mydeployment", "mystage", "", 0, Core.DeploymentDoc(None, []));
      var r := MapDeploymentToStatusModel(d);
      r.deploymentName == "mydeployment" && r.stageName == "mystage" && r.reported.revisions == [] && r.reported.traffic == []
  {
  }
}
