/**
 * The reconciler as written declares its reason map without making it
 * (a nil map in Go) and then writes to it. In Go a write to a nil map
 * panics, so every decision that has a reason to report past the tag fast
 * path panics instead of returning. (As it stands the Go file does not
 * compile: it returns a `map[string]interface{}` from a function declared
 * to return `map[string]string`; the panic is what remains once that
 * mismatch is settled, as the `Payload` datatype settles it here.) This
 * module models that code as written, shows where it parts from the
 * corrected decision, and proves that the correction (the map made empty before the first write, as
 * `ImageReconciler.CollectReasons` does) returns exactly `Decide`.
 */
module NilReasonsMap {
  import opened Wrappers
  import opened V1alpha1
  import opened ImageReconciler

  /** A Go map variable: nil, or made and holding entries. */
  datatype GoMap = NilMap | MadeMap(entries: Reasons)

  /** The state of the writes so far: still running with the map, or panicked. */
  datatype Run = Running(reasons: GoMap) | Panicked

  /** What a call returns: a decision, or a panic. */
  datatype Outcome = Returned(decision: Decision) | Panic

  /** One Go map assignment: a write into a nil map panics. */
  function Write(run: Run, r: Reason): Run {
    match run
    case Panicked => Panicked
    case Running(NilMap) => Panicked
    case Running(MadeMap(entries)) => Running(MadeMap(entries[r.kind := r.payload]))
  }

  /** The assignments the detectors make, in order. */
  function RunWrites(start: Run, emitted: seq<Reason>): Run {
    if emitted == [] then start
    else Write(RunWrites(start, emitted[..|emitted| - 1]), emitted[|emitted| - 1])
  }

  /** Starting from a nil map, the first write panics and nothing after recovers. */
  lemma {:induction false} NilMapPanicsOnAnyWrite(emitted: seq<Reason>)
    ensures RunWrites(Running(NilMap), emitted) == if emitted == [] then Running(NilMap) else Panicked
  {
    if emitted != [] {
      NilMapPanicsOnAnyWrite(emitted[..|emitted| - 1]);
    }
  }

  /** Starting from a made empty map, the writes compute the fold of the reasons. */
  lemma {:induction false} MadeMapFolds(emitted: seq<Reason>)
    ensures RunWrites(Running(MadeMap(map[])), emitted) == Running(MadeMap(Fold(emitted)))
  {
    if emitted != [] {
      MadeMapFolds(emitted[..|emitted| - 1]);
    }
  }

  /** `len` of a Go map: zero for a nil map. */
  function Len(m: GoMap): nat {
    match m
    case NilMap => 0
    case MadeMap(entries) => |entries|
  }

  /** The decision as written: the reason map starts nil. */
  function BuildNeededAsWritten(im: Image, lastBuild: Option<Build>, sourceResolver: SourceResolver, builder: BuilderResource, parse: ReferenceParser): (outcome: Outcome)
    ensures !sourceResolver.ready || !builder.ready ==> outcome == Returned(Decision(map[], ConditionUnknown))
    ensures sourceResolver.ready && builder.ready && (lastBuild.None? || im.tag != lastBuild.value.tag) ==>
              outcome == Returned(Decision(map[Config := Empty], ConditionTrue))
    ensures outcome == Panic ==> sourceResolver.ready && builder.ready && lastBuild.Some? && im.tag == lastBuild.value.tag
    ensures outcome.Returned? && outcome.decision.status == ConditionFalse ==> outcome.decision.reasons == map[]
  {
    if !sourceResolver.ready || !builder.ready then
      Returned(Decision(map[], ConditionUnknown))
    else if lastBuild.None? || im.tag != lastBuild.value.tag then
      Returned(Decision(map[Config := Empty], ConditionTrue))
    else
      match RunWrites(Running(NilMap), Detections(im, lastBuild.value, sourceResolver, builder, parse))
      case Panicked => Panic
      case Running(reasons) =>
        if Len(reasons) == 0 then Returned(Decision(map[], ConditionFalse))
        else Returned(Decision(reasons.entries, ConditionTrue))
  }

  /**
   * The code as written panics exactly when the corrected decision, past the
   * fast path, would report a reason; whenever it returns, it returns the
   * corrected decision.
   */
  lemma AsWrittenPanicsExactlyOnReasons(im: Image, lastBuild: Option<Build>, sourceResolver: SourceResolver, builder: BuilderResource, parse: ReferenceParser)
    ensures
      var asWritten := BuildNeededAsWritten(im, lastBuild, sourceResolver, builder, parse);
      var corrected := Decide(im, lastBuild, sourceResolver, builder, parse);
      && (asWritten == Panic <==>
            && sourceResolver.ready && builder.ready
            && lastBuild.Some? && im.tag == lastBuild.value.tag
            && corrected.status == ConditionTrue)
      && (asWritten != Panic ==> asWritten == Returned(corrected))
  {
    if sourceResolver.ready && builder.ready && lastBuild.Some? && im.tag == lastBuild.value.tag {
      var emitted := Detections(im, lastBuild.value, sourceResolver, builder, parse);
      NilMapPanicsOnAnyWrite(emitted);
      if emitted != [] {
        var last := emitted[|emitted| - 1];
        assert last.kind in Fold(emitted);
      }
    }
  }

  /** The corrected writes, starting from a made empty map, never panic and return `Decide`. */
  lemma CorrectedNeverPanics(im: Image, lastBuild: Option<Build>, sourceResolver: SourceResolver, builder: BuilderResource, parse: ReferenceParser)
    requires sourceResolver.ready && builder.ready && lastBuild.Some? && im.tag == lastBuild.value.tag
    ensures
      var emitted := Detections(im, lastBuild.value, sourceResolver, builder, parse);
      var run := RunWrites(Running(MadeMap(map[])), emitted);
      && run.Running?
      && (if Len(run.reasons) == 0 then Decision(map[], ConditionFalse) else Decision(run.reasons.entries, ConditionTrue))
           == Decide(im, lastBuild, sourceResolver, builder, parse)
  {
    MadeMapFolds(Detections(im, lastBuild.value, sourceResolver, builder, parse));
  }

  /**
   * A concrete input: same tag, same env, resources and bindings, ready, and
   * the source config changed. The code as written panics; the corrected
   * decision is True with config.
   */
  lemma ConfigChangePanics(env: EnvVars, resources: Resources, bindings: Bindings, revision: RevisionDetail)
    ensures
      var im := Image("registry.example/app", env, resources, bindings);
      var last := Build("registry.example/app", env, resources, bindings, ConditionTrue, [], "", map[]);
      var sourceResolver := SourceResolver(true, (b: Build) => true, (b: Build) => RevisionChange(revision, false));
      var builder := BuilderResource(true, BuildpackMetadataList((bp: BuildpackMetadata) => true), "");
      var parse: ReferenceParser := (s: string) => None;
      && BuildNeededAsWritten(im, Some(last), sourceResolver, builder, parse) == Panic
      && Decide(im, Some(last), sourceResolver, builder, parse) == Decision(map[Config := Empty], ConditionTrue)
  {
    var im := Image("registry.example/app", env, resources, bindings);
    var last := Build("registry.example/app", env, resources, bindings, ConditionTrue, [], "", map[]);
    var sourceResolver := SourceResolver(true, (b: Build) => true, (b: Build) => RevisionChange(revision, false));
    var builder := BuilderResource(true, BuildpackMetadataList((bp: BuildpackMetadata) => true), "");
    var parse: ReferenceParser := (s: string) => None;
    assert Uncovered(last.buildMetadata, builder.buildpackMetadata.includes) == [];
    assert Detections(im, last, sourceResolver, builder, parse) == [Reason(Config, Empty)];
    assert [Reason(Config, Empty)][..0] == [];
  }
}
