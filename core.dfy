/**
 * The domain types of pkg/core/deployment_types.go, plus the ResourceFile
 * record that rendering produces and the git repository commits.
 */
module Core {
  import opened Wrappers

  /** Go's int64 and int32: values are copied, never computed on, so a range suffices. */
  type Int64 = x: int | -0x8000_0000_0000_0000 <= x < 0x8000_0000_0000_0000
  type Int32 = x: int | -0x8000_0000 <= x < 0x8000_0000
  type Byte = x: int | 0 <= x < 256

  /** A point in time (time.Time), as an opaque instant. */
  type Timestamp = int

  /** A file to place in the state repository: its path and serialized content. */
  datatype ResourceFile = ResourceFile(name: string, contents: seq<Byte>)

  /**
   * The application's configuration document (model.AppConfig). Only its name
   * is read by the code modelled here; the rest is carried as opaque text.
   */
  datatype AppConfig = AppConfig(name: string, body: string)

  /** One entry of the desired traffic split that is persisted per deployment. */
  datatype TrafficConfigRule = TrafficConfigRule(riserRevision: Int64, revisionName: string, percent: int)

  /** An ordered list of traffic rules. */
  type TrafficConfig = seq<TrafficConfigRule>

  datatype StatusProblem = StatusProblem(count: int, message: string)

  datatype DeploymentRevisionStatus = DeploymentRevisionStatus(
    name: string,
    availableReplicas: Int32,
    dockerImage: string,
    riserRevision: Int64,
    rolloutStatus: string,
    rolloutStatusReason: string,
    problems: seq<StatusProblem>)

  /** A reported revision may carry no traffic allocation, hence the optional percent. */
  datatype DeploymentTrafficStatus = DeploymentTrafficStatus(
    percent: Option<Int64>,
    revisionName: string,
    tag: string)

  datatype DeploymentStatus = DeploymentStatus(
    observedRiserRevision: Int64,
    lastUpdated: Timestamp,
    revisions: seq<DeploymentRevisionStatus>,
    latestReadyRevisionName: string,
    latestCreatedRevisionName: string,
    traffic: seq<DeploymentTrafficStatus>)

  /** The document persisted per deployment; its status is absent until a first report. */
  datatype DeploymentDoc = DeploymentDoc(status: Option<DeploymentStatus>, traffic: seq<TrafficConfigRule>)

  datatype Deployment = Deployment(
    name: string,
    stageName: string,
    appName: string,
    riserRevision: Int64,
    doc: DeploymentDoc)
}
