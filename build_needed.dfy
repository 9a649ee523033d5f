/**
 * The build-trigger decision of the Image reconciler: given the Image, the
 * last Build (if any), the SourceResolver and the Builder, decide whether a
 * new Build is needed and collect the reasons for it.
 *
 * `BuildNeeded` is the decision written as the reconciler writes it, filling
 * a reason map in place one detector after another. `Decide` is its
 * specification: each detector returns the reasons it emits as a value and
 * the aggregator folds them into one map, the last writer of a reason kind
 * winning.
 */
module ImageReconciler {
  import opened Wrappers
  import opened V1alpha1

  /** Why a build is needed. */
  datatype ReasonKind = Config | Commit | Buildpack | Stack

  /** A buildpack of the last Build that the Builder no longer provides. */
  datatype BuildpackInfo = BuildpackInfo(id: string, version: string)

  datatype BuildpackChange = BuildpackChange(buildpacks: seq<BuildpackInfo>)
  {
    /** Drift is reported exactly when at least one buildpack was collected. */
    predicate HasChanged() {
      |buildpacks| > 0
    }
  }

  /** Run-image identifiers of the last Build and of the Builder. */
  datatype StackChange = StackChange(lastBuildRunImage: string, builderRunImage: string)
  {
    /** A change is reported exactly when the two identifiers differ; the zero change reports none. */
    predicate HasChanged() {
      lastBuildRunImage != builderRunImage
    }
  }

  /** What a reason carries: nothing, the revision change, the buildpack drift or the stack change. */
  datatype Payload =
    | Empty
    | Revision(revision: RevisionChange)
    | Buildpacks(infos: seq<BuildpackInfo>)
    | RunImages(stack: StackChange)

  type Reasons = map<ReasonKind, Payload>

  datatype Reason = Reason(kind: ReasonKind, payload: Payload)

  datatype Decision = Decision(reasons: Reasons, status: ConditionStatus)

  /** name.ParseReference followed by Identifier(): the identifier, or None when the reference does not parse. */
  type ReferenceParser = string -> Option<string>

  // ---------------------------------------------------------------------
  // Buildpack drift

  /**
   * The entries of `metadata` that `includes` rejects, projected to
   * (id, version), in their original order.
   */
  function Uncovered(metadata: seq<BuildpackMetadata>, includes: BuildpackMetadata -> bool): seq<BuildpackInfo>
  {
    if metadata == [] then []
    else
      var bp := metadata[0];
      (if includes(bp) then [] else [BuildpackInfo(bp.id, bp.version)]) + Uncovered(metadata[1..], includes)
  }

  /** Filtering a concatenation filters each part and keeps their order. */
  lemma {:induction false} UncoveredAppend(a: seq<BuildpackMetadata>, b: seq<BuildpackMetadata>, includes: BuildpackMetadata -> bool)
    ensures Uncovered(a + b, includes) == Uncovered(a, includes) + Uncovered(b, includes)
  {
    if a == [] {
      assert a + b == b;
    } else {
      assert (a + b)[1..] == a[1..] + b;
      UncoveredAppend(a[1..], b, includes);
    }
  }

  /** Collects, in order, the last Build's buildpacks that the Builder does not include. */
  method BuiltWithBuildpacks(build: Build, buildpacks: BuildpackMetadataList) returns (change: BuildpackChange)
    ensures change.buildpacks == Uncovered(build.buildMetadata, buildpacks.includes)
  {
    var metadata := build.buildMetadata;
    var infos: seq<BuildpackInfo> := [];
    var i := 0;
    while i < |metadata|
      invariant 0 <= i <= |metadata|
      invariant infos == Uncovered(metadata[..i], buildpacks.includes)
    {
      var bp := metadata[i];
      if !buildpacks.includes(bp) {
        infos := infos + [BuildpackInfo(bp.id, bp.version)];
      }
      assert metadata[..i + 1] == metadata[..i] + [bp];
      UncoveredAppend(metadata[..i], [bp], buildpacks.includes);
      assert [bp][1..] == [];
      i := i + 1;
    }
    assert metadata[..i] == metadata;
    change := BuildpackChange(infos);
  }

  // ---------------------------------------------------------------------
  // Stack drift

  /**
   * Compares the run image the last Build used with the Builder's current
   * one, by identifier. Fails open: no recorded run image, or a reference
   * that does not parse, gives the zero change, which reports no change.
   */
  function BuiltWithStack(build: Build, runImage: string, parse: ReferenceParser): (change: StackChange)
    ensures build.runImage == "" || parse(build.runImage).None? || parse(runImage).None? ==>
              change == StackChange("", "")
    ensures change.HasChanged() <==>
              && build.runImage != ""
              && parse(build.runImage).Some?
              && parse(runImage).Some?
              && parse(build.runImage).value != parse(runImage).value
    ensures build.runImage != "" && parse(build.runImage).Some? && parse(runImage).Some? ==>
              change == StackChange(parse(build.runImage).value, parse(runImage).value)
  {
    if build.runImage == "" then StackChange("", "")
    else
      match parse(build.runImage)
      case None => StackChange("", "")
      case Some(lastBuildId) =>
        match parse(runImage)
        case None => StackChange("", "")
        case Some(builderId) => StackChange(lastBuildId, builderId)
  }

  // ---------------------------------------------------------------------
  // Manual rebuild request

  /** One more build is requested exactly when the Build carries the rebuild annotation, whatever its value. */
  predicate AdditionalBuildNeeded(build: Build) {
    BuildNeededAnnotation in build.annotations
  }

  // ---------------------------------------------------------------------
  // The decision as value-returning detectors folded into one map

  /** The reason `kind` with `payload` when `fires`, and nothing otherwise. */
  function Emit(fires: bool, kind: ReasonKind, payload: Payload): seq<Reason> {
    if fires then [Reason(kind, payload)] else []
  }

  /**
   * The config detector: the resolver reports a changed source config, or
   * the Image's env, resources or bindings differ from the last Build's.
   */
  predicate ConfigDiffers(im: Image, last: Build, sourceResolver: SourceResolver) {
    || sourceResolver.configChanged(last)
    || im.env != last.env
    || im.resources != last.resources
    || im.bindings != last.bindings
  }

  /**
   * The reasons the detectors emit, in the order the reconciler evaluates
   * them: config, commit, buildpack drift and stack drift (both only after a
   * successful Build), then the rebuild annotation.
   */
  function Detections(im: Image, last: Build, sourceResolver: SourceResolver, builder: BuilderResource, parse: ReferenceParser): seq<Reason>
  {
    var revision := sourceResolver.revisionChange(last);
    var buildpacks := Uncovered(last.buildMetadata, builder.buildpackMetadata.includes);
    var stack := BuiltWithStack(last, builder.runImage, parse);
    Emit(ConfigDiffers(im, last, sourceResolver), Config, Empty)
    + Emit(revision.HasChanged(), Commit, Revision(revision))
    + Emit(last.IsSuccess() && BuildpackChange(buildpacks).HasChanged(), Buildpack, Buildpacks(buildpacks))
    + Emit(last.IsSuccess() && stack.HasChanged(), Stack, RunImages(stack))
    + Emit(AdditionalBuildNeeded(last), Buildpack, Empty)
  }

  /** Folds emitted reasons into one map; a later reason of the same kind overwrites an earlier one. */
  function Fold(emitted: seq<Reason>): Reasons
  {
    if emitted == [] then map[]
    else
      var r := emitted[|emitted| - 1];
      Fold(emitted[..|emitted| - 1])[r.kind := r.payload]
  }

  /** Folding one more (possibly empty) emission updates the map at most at that kind. */
  lemma FoldEmit(emitted: seq<Reason>, fires: bool, kind: ReasonKind, payload: Payload)
    ensures Fold(emitted + Emit(fires, kind, payload)) ==
              if fires then Fold(emitted)[kind := payload] else Fold(emitted)
  {
    if fires {
      assert (emitted + [Reason(kind, payload)])[..|emitted|] == emitted;
    } else {
      assert emitted + [] == emitted;
    }
  }

  /** The specification of the decision: readiness gate, tag fast path, then the folded detectors. */
  function Decide(im: Image, lastBuild: Option<Build>, sourceResolver: SourceResolver, builder: BuilderResource, parse: ReferenceParser): Decision
  {
    if !sourceResolver.ready || !builder.ready then
      Decision(map[], ConditionUnknown)
    else if lastBuild.None? || im.tag != lastBuild.value.tag then
      Decision(map[Config := Empty], ConditionTrue)
    else
      var reasons := Fold(Detections(im, lastBuild.value, sourceResolver, builder, parse));
      if |reasons| == 0 then Decision(map[], ConditionFalse) else Decision(reasons, ConditionTrue)
  }

  // ---------------------------------------------------------------------
  // The decision as the reconciler computes it

  /**
   * Decides whether a new Build is needed: the readiness gate, the tag fast
   * path, then the reasons collected by `CollectReasons`.
   */
  method BuildNeeded(im: Image, lastBuild: Option<Build>, sourceResolver: SourceResolver, builder: BuilderResource, parse: ReferenceParser)
    returns (reasons: Reasons, status: ConditionStatus)
    ensures Decision(reasons, status) == Decide(im, lastBuild, sourceResolver, builder, parse)
    ensures status == ConditionUnknown <==> !sourceResolver.ready || !builder.ready
    ensures status == ConditionTrue <==> |reasons| > 0
  {
    if !sourceResolver.ready || !builder.ready {
      return map[], ConditionUnknown;
    }

    if lastBuild.None? || im.tag != lastBuild.value.tag {
      return map[Config := Empty], ConditionTrue;
    }

    reasons := CollectReasons(im, lastBuild.value, sourceResolver, builder, parse);
    if |reasons| == 0 {
      return map[], ConditionFalse;
    }
    return reasons, ConditionTrue;
  }

  /**
   * Runs every detector after the fast path and writes what each finds
   * into one reason map, in place. The map starts empty (the Go declares it
   * nil and then writes to it; see NilReasonsMap).
   */
  method CollectReasons(im: Image, last: Build, sourceResolver: SourceResolver, builder: BuilderResource, parse: ReferenceParser)
    returns (reasons: Reasons)
    ensures reasons == Fold(Detections(im, last, sourceResolver, builder, parse))
  {
    reasons := map[];
    ghost var emitted: seq<Reason> := [];

    var configDiffers := ConfigDiffers(im, last, sourceResolver);
    if configDiffers {
      reasons := reasons[Config := Empty];
    }
    FoldEmit(emitted, configDiffers, Config, Empty);
    emitted := emitted + Emit(configDiffers, Config, Empty);

    var revisionChange := sourceResolver.revisionChange(last);
    if revisionChange.HasChanged() {
      reasons := reasons[Commit := Revision(revisionChange)];
    }
    FoldEmit(emitted, revisionChange.HasChanged(), Commit, Revision(revisionChange));
    emitted := emitted + Emit(revisionChange.HasChanged(), Commit, Revision(revisionChange));

    if last.IsSuccess() {
      var buildpacksChange := BuiltWithBuildpacks(last, builder.buildpackMetadata);
      if buildpacksChange.HasChanged() {
        reasons := reasons[Buildpack := Buildpacks(buildpacksChange.buildpacks)];
      }

      var stackChange := BuiltWithStack(last, builder.runImage, parse);
      if stackChange.HasChanged() {
        reasons := reasons[Stack := RunImages(stackChange)];
      }
    }
    ghost var buildpacks := Uncovered(last.buildMetadata, builder.buildpackMetadata.includes);
    ghost var stack := BuiltWithStack(last, builder.runImage, parse);
    ghost var buildpackFires := last.IsSuccess() && BuildpackChange(buildpacks).HasChanged();
    ghost var stackFires := last.IsSuccess() && stack.HasChanged();
    FoldEmit(emitted, buildpackFires, Buildpack, Buildpacks(buildpacks));
    emitted := emitted + Emit(buildpackFires, Buildpack, Buildpacks(buildpacks));
    FoldEmit(emitted, stackFires, Stack, RunImages(stack));
    emitted := emitted + Emit(stackFires, Stack, RunImages(stack));

    if AdditionalBuildNeeded(last) {
      reasons := reasons[Buildpack := Empty];
    }
    FoldEmit(emitted, AdditionalBuildNeeded(last), Buildpack, Empty);
    emitted := emitted + Emit(AdditionalBuildNeeded(last), Buildpack, Empty);

    assert emitted == Detections(im, last, sourceResolver, builder, parse);
  }
}
