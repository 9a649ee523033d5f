/**
 * The resource types the build-trigger decision reads: the Image's desired
 * state, the last Build, the SourceResolver and the Builder. Their Go
 * definitions live in the kpack API package, which is not part of this
 * model. Fields the decision only compares for equality are opaque values;
 * the fields it inspects are spelled out.
 *
 * Collaborator queries whose code is not part of this model
 * (SourceResolver.ConfigChanged, SourceResolver.RevisionChange,
 * BuildpackMetadataList.Include) are carried as total functions inside the
 * snapshot, so that every property below holds for every implementation of
 * them.
 */
module V1alpha1 {

  /** Kubernetes condition status, used both for the decision and for a Build's Succeeded condition. */
  datatype ConditionStatus = ConditionTrue | ConditionFalse | ConditionUnknown

  /**
   * An Image's or Build's env list, resource requirements and service
   * bindings. The decision only compares them with Kubernetes' semantic
   * equality, so each is an opaque value standing for its class under that
   * equality, and `==` on these values is semantic equality.
   */
  type EnvVars(==)

  type Resources(==)

  type Bindings(==)

  /** The Image's desired state (read only here). */
  datatype Image = Image(
    tag: string,
    env: EnvVars,
    resources: Resources,
    bindings: Bindings)

  /** One buildpack recorded in a Build's status, or offered by a Builder. */
  datatype BuildpackMetadata = BuildpackMetadata(id: string, version: string)

  /** The last Build: the tag and spec it was built with and its status. */
  datatype Build = Build(
    tag: string,
    env: EnvVars,
    resources: Resources,
    bindings: Bindings,
    succeeded: ConditionStatus,
    buildMetadata: seq<BuildpackMetadata>,
    runImage: string,
    annotations: map<string, string>)
  {
    /** A Build is a success when its Succeeded condition is True. */
    predicate IsSuccess() {
      succeeded == ConditionTrue
    }
  }

  /**
   * Annotation on a Build that requests one more build. Its text is defined
   * in the kpack API package, which is not part of this model, and nothing
   * here depends on it.
   */
  const BuildNeededAnnotation: string

  /** What a source resolver's revision-change descriptor records, besides whether it counts as a change; the decision only passes it on. */
  type RevisionDetail(==)

  /**
   * The source resolver's revision-change descriptor. Its concrete kinds
   * (git, blob, registry) are defined outside this model; the decision only
   * asks `HasChanged()` and stores the descriptor as the commit reason.
   */
  datatype RevisionChange = RevisionChange(detail: RevisionDetail, changed: bool)
  {
    predicate HasChanged() {
      changed
    }
  }

  datatype SourceResolver = SourceResolver(
    ready: bool,
    configChanged: Build -> bool,
    revisionChange: Build -> RevisionChange)

  /** The builder's buildpack list, known to the decision only through its Include query. */
  datatype BuildpackMetadataList = BuildpackMetadataList(includes: BuildpackMetadata -> bool)

  /** A Builder or ClusterBuilder: both variants present the same three queries. */
  datatype BuilderResource = BuilderResource(
    ready: bool,
    buildpackMetadata: BuildpackMetadataList,
    runImage: string)
}
