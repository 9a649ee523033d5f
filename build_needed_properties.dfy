/**
 * What the build-trigger decision promises, proved about its specification
 * `Decide` (which `BuildNeeded` is proved to compute) and about the
 * buildpack filter and the reason fold it is built from.
 */
module BuildNeededProperties {
  import opened Wrappers
  import opened V1alpha1
  import opened ImageReconciler

  // ---------------------------------------------------------------------
  // The buildpack filter

  /** The drift list is never longer than the last Build's buildpack list. */
  lemma {:induction false} UncoveredLength(metadata: seq<BuildpackMetadata>, includes: BuildpackMetadata -> bool)
    ensures |Uncovered(metadata, includes)| <= |metadata|
  {
    if metadata != [] {
      UncoveredLength(metadata[1..], includes);
    }
  }

  /** An entry is in the drift list exactly when some buildpack of the last Build projects to it and is not included. */
  lemma {:induction false} UncoveredMembers(metadata: seq<BuildpackMetadata>, includes: BuildpackMetadata -> bool, info: BuildpackInfo)
    ensures info in Uncovered(metadata, includes) <==>
              exists i :: 0 <= i < |metadata| && !includes(metadata[i]) && info == BuildpackInfo(metadata[i].id, metadata[i].version)
  {
    if metadata != [] {
      UncoveredMembers(metadata[1..], includes, info);
      if info in Uncovered(metadata, includes) && !(info in Uncovered(metadata[1..], includes)) {
        assert !includes(metadata[0]) && info == BuildpackInfo(metadata[0].id, metadata[0].version);
      }
      if exists i :: 0 <= i < |metadata| && !includes(metadata[i]) && info == BuildpackInfo(metadata[i].id, metadata[i].version) {
        var i :| 0 <= i < |metadata| && !includes(metadata[i]) && info == BuildpackInfo(metadata[i].id, metadata[i].version);
        if i > 0 {
          assert metadata[1..][i - 1] == metadata[i];
        }
      }
    }
  }

  /** When every buildpack of the last Build is rejected, the drift list is all of them, in order. */
  lemma {:induction false} UncoveredAllRejected(metadata: seq<BuildpackMetadata>, includes: BuildpackMetadata -> bool)
    requires forall i :: 0 <= i < |metadata| ==> !includes(metadata[i])
    ensures |Uncovered(metadata, includes)| == |metadata|
    ensures forall i :: 0 <= i < |metadata| ==>
              Uncovered(metadata, includes)[i] == BuildpackInfo(metadata[i].id, metadata[i].version)
  {
    if metadata != [] {
      UncoveredAllRejected(metadata[1..], includes);
    }
  }

  /** Buildpack drift is reported exactly when some buildpack of the last Build is not included by the Builder. */
  lemma BuildpackChangeHasChanged(metadata: seq<BuildpackMetadata>, includes: BuildpackMetadata -> bool)
    ensures BuildpackChange(Uncovered(metadata, includes)).HasChanged() <==>
              exists i :: 0 <= i < |metadata| && !includes(metadata[i])
  {
    var drift := Uncovered(metadata, includes);
    if exists i :: 0 <= i < |metadata| && !includes(metadata[i]) {
      var i :| 0 <= i < |metadata| && !includes(metadata[i]);
      UncoveredMembers(metadata, includes, BuildpackInfo(metadata[i].id, metadata[i].version));
    }
    if |drift| > 0 {
      UncoveredMembers(metadata, includes, drift[0]);
    }
  }

  // ---------------------------------------------------------------------
  // The reason fold

  /** A kind is in the folded map exactly when some detector emitted it. */
  lemma {:induction false} FoldKeys(emitted: seq<Reason>, kind: ReasonKind)
    ensures kind in Fold(emitted) <==> exists i :: 0 <= i < |emitted| && emitted[i].kind == kind
  {
    if emitted != [] {
      var prefix := emitted[..|emitted| - 1];
      FoldKeys(prefix, kind);
      if exists i :: 0 <= i < |prefix| && prefix[i].kind == kind {
        var i :| 0 <= i < |prefix| && prefix[i].kind == kind;
        assert emitted[i] == prefix[i];
      }
      if exists i :: 0 <= i < |emitted| && emitted[i].kind == kind {
        var i :| 0 <= i < |emitted| && emitted[i].kind == kind;
        if i < |prefix| {
          assert prefix[i] == emitted[i];
        }
      }
    }
  }

  /** A recurring kind is overwritten, not accumulated: its payload is that of its last emission. */
  lemma {:induction false} FoldLastWriterWins(emitted: seq<Reason>, i: nat)
    requires i < |emitted|
    requires forall j :: i < j < |emitted| ==> emitted[j].kind != emitted[i].kind
    ensures emitted[i].kind in Fold(emitted)
    ensures Fold(emitted)[emitted[i].kind] == emitted[i].payload
  {
    var prefix := emitted[..|emitted| - 1];
    if i < |emitted| - 1 {
      assert prefix[i] == emitted[i];
      FoldLastWriterWins(prefix, i);
    }
  }

  /** The folded map is empty exactly when no detector emitted anything. */
  lemma FoldEmptyIff(emitted: seq<Reason>)
    ensures |Fold(emitted)| == 0 <==> emitted == []
  {
    if emitted != [] {
      var last := emitted[|emitted| - 1];
      assert last.kind in Fold(emitted);
    }
  }

  // ---------------------------------------------------------------------
  // The detectors, once past the fast path

  /** The map after one more detector: updated at `kind` when it fires. */
  function Apply(reasons: Reasons, fires: bool, kind: ReasonKind, payload: Payload): Reasons {
    if fires then reasons[kind := payload] else reasons
  }

  /** Folding five detectors' emissions performs their conditional writes in order. */
  lemma FoldFive(
    f1: bool, k1: ReasonKind, p1: Payload, f2: bool, k2: ReasonKind, p2: Payload,
    f3: bool, k3: ReasonKind, p3: Payload, f4: bool, k4: ReasonKind, p4: Payload,
    f5: bool, k5: ReasonKind, p5: Payload)
    ensures Fold(Emit(f1, k1, p1) + Emit(f2, k2, p2) + Emit(f3, k3, p3) + Emit(f4, k4, p4) + Emit(f5, k5, p5)) ==
              Apply(Apply(Apply(Apply(Apply(map[], f1, k1, p1), f2, k2, p2), f3, k3, p3), f4, k4, p4), f5, k5, p5)
  {
    var e1, e2, e3, e4 := Emit(f1, k1, p1), Emit(f2, k2, p2), Emit(f3, k3, p3), Emit(f4, k4, p4);
    FoldEmit([], f1, k1, p1);
    assert [] + e1 == e1;
    FoldEmit(e1, f2, k2, p2);
    FoldEmit(e1 + e2, f3, k3, p3);
    FoldEmit(e1 + e2 + e3, f4, k4, p4);
    FoldEmit(e1 + e2 + e3 + e4, f5, k5, p5);
  }

  /** The folded detectors as five successive conditional writes. */
  lemma FoldedDetectionsShape(im: Image, last: Build, sourceResolver: SourceResolver, builder: BuilderResource, parse: ReferenceParser)
    ensures
      var revision := sourceResolver.revisionChange(last);
      var drift := Uncovered(last.buildMetadata, builder.buildpackMetadata.includes);
      var stack := BuiltWithStack(last, builder.runImage, parse);
      Fold(Detections(im, last, sourceResolver, builder, parse)) ==
        Apply(Apply(Apply(Apply(Apply(map[],
          ConfigDiffers(im, last, sourceResolver), Config, Empty),
          revision.HasChanged(), Commit, Revision(revision)),
          last.IsSuccess() && |drift| > 0, Buildpack, Buildpacks(drift)),
          last.IsSuccess() && stack.HasChanged(), Stack, RunImages(stack)),
          AdditionalBuildNeeded(last), Buildpack, Empty)
  {
    var revision := sourceResolver.revisionChange(last);
    var drift := Uncovered(last.buildMetadata, builder.buildpackMetadata.includes);
    var stack := BuiltWithStack(last, builder.runImage, parse);
    FoldFive(
      ConfigDiffers(im, last, sourceResolver), Config, Empty,
      revision.HasChanged(), Commit, Revision(revision),
      last.IsSuccess() && BuildpackChange(drift).HasChanged(), Buildpack, Buildpacks(drift),
      last.IsSuccess() && stack.HasChanged(), Stack, RunImages(stack),
      AdditionalBuildNeeded(last), Buildpack, Empty);
  }

  /** What the folded detectors produce, reason kind by reason kind. */
  lemma FoldedDetections(im: Image, last: Build, sourceResolver: SourceResolver, builder: BuilderResource, parse: ReferenceParser)
    ensures
      var reasons := Fold(Detections(im, last, sourceResolver, builder, parse));
      var revision := sourceResolver.revisionChange(last);
      var drift := Uncovered(last.buildMetadata, builder.buildpackMetadata.includes);
      var stack := BuiltWithStack(last, builder.runImage, parse);
      && reasons.Keys <= {Config, Commit, Buildpack, Stack}
      && (Config in reasons <==> ConfigDiffers(im, last, sourceResolver))
      && (Config in reasons ==> reasons[Config] == Empty)
      && (Commit in reasons <==> revision.HasChanged())
      && (Commit in reasons ==> reasons[Commit] == Revision(revision))
      && (Stack in reasons <==> last.IsSuccess() && stack.HasChanged())
      && (Stack in reasons ==> reasons[Stack] == RunImages(stack))
      && (Buildpack in reasons <==> (last.IsSuccess() && |drift| > 0) || AdditionalBuildNeeded(last))
      && (AdditionalBuildNeeded(last) ==> reasons[Buildpack] == Empty)
      && (!AdditionalBuildNeeded(last) && Buildpack in reasons ==> reasons[Buildpack] == Buildpacks(drift))
  {
    FoldedDetectionsShape(im, last, sourceResolver, builder, parse);
    var revision := sourceResolver.revisionChange(last);
    var drift := Uncovered(last.buildMetadata, builder.buildpackMetadata.includes);
    var stack := BuiltWithStack(last, builder.runImage, parse);
    // The map after each detector, in source order.
    var m1 := Apply(map[], ConfigDiffers(im, last, sourceResolver), Config, Empty);
    var m2 := Apply(m1, revision.HasChanged(), Commit, Revision(revision));
    var m3 := Apply(m2, last.IsSuccess() && |drift| > 0, Buildpack, Buildpacks(drift));
    var m4 := Apply(m3, last.IsSuccess() && stack.HasChanged(), Stack, RunImages(stack));
    var m5 := Apply(m4, AdditionalBuildNeeded(last), Buildpack, Empty);
    assert Fold(Detections(im, last, sourceResolver, builder, parse)) == m5;
    assert m5.Keys <= {Config, Commit, Buildpack, Stack};
    // Each kind is decided by the last detector that writes it.
    assert Config in m5 <==> Config in m1;
    assert Config in m5 ==> m5[Config] == m1[Config];
    assert Commit in m5 <==> Commit in m2;
    assert Commit in m5 ==> m5[Commit] == m2[Commit];
    assert Stack in m5 <==> Stack in m4;
    assert Stack in m5 ==> m5[Stack] == m4[Stack];
    assert Buildpack in m4 <==> Buildpack in m3;
    assert Buildpack in m4 ==> m4[Buildpack] == m3[Buildpack];
  }

  // ---------------------------------------------------------------------
  // The decision

  /** Readiness gate: a resolver or builder that is not ready gives Unknown with no reasons, whatever else holds. */
  lemma ReadinessGate(im: Image, lastBuild: Option<Build>, sourceResolver: SourceResolver, builder: BuilderResource, parse: ReferenceParser)
    requires !sourceResolver.ready || !builder.ready
    ensures Decide(im, lastBuild, sourceResolver, builder, parse) == Decision(map[], ConditionUnknown)
  {
  }

  /** Tag fast path: no last Build, or a different tag, gives True with the single reason config and an empty payload. */
  lemma TagFastPath(im: Image, lastBuild: Option<Build>, sourceResolver: SourceResolver, builder: BuilderResource, parse: ReferenceParser)
    requires sourceResolver.ready && builder.ready
    requires lastBuild.None? || im.tag != lastBuild.value.tag
    ensures Decide(im, lastBuild, sourceResolver, builder, parse) == Decision(map[Config := Empty], ConditionTrue)
  {
  }

  /**
   * The status agrees with the reasons: Unknown exactly when a dependency is
   * not ready, True exactly when there are reasons, and False exactly when
   * the dependencies are ready, the last Build has the Image's tag and no
   * detector fires.
   */
  lemma StatusAgreement(im: Image, lastBuild: Option<Build>, sourceResolver: SourceResolver, builder: BuilderResource, parse: ReferenceParser)
    ensures
      var d := Decide(im, lastBuild, sourceResolver, builder, parse);
      && (d.status == ConditionUnknown <==> !sourceResolver.ready || !builder.ready)
      && (d.status == ConditionTrue <==> |d.reasons| > 0)
      && (d.status == ConditionFalse <==>
            && sourceResolver.ready && builder.ready
            && lastBuild.Some? && im.tag == lastBuild.value.tag
            && Detections(im, lastBuild.value, sourceResolver, builder, parse) == [])
      && (d.status == ConditionFalse ==> d.reasons == map[])
  {
    if sourceResolver.ready && builder.ready && lastBuild.Some? && im.tag == lastBuild.value.tag {
      FoldEmptyIff(Detections(im, lastBuild.value, sourceResolver, builder, parse));
    }
  }

  /** Past the fast path, a True decision carries exactly the folded reasons. */
  lemma ReasonsAreFolded(im: Image, last: Build, sourceResolver: SourceResolver, builder: BuilderResource, parse: ReferenceParser)
    requires sourceResolver.ready && builder.ready && im.tag == last.tag
    ensures
      var d := Decide(im, Some(last), sourceResolver, builder, parse);
      d.reasons == Fold(Detections(im, last, sourceResolver, builder, parse))
  {
    FoldEmptyIff(Detections(im, last, sourceResolver, builder, parse));
  }

  /** Config reason: present exactly when the source config, env, resources or bindings differ; its payload is empty. */
  lemma ConfigReason(im: Image, last: Build, sourceResolver: SourceResolver, builder: BuilderResource, parse: ReferenceParser)
    requires sourceResolver.ready && builder.ready && im.tag == last.tag
    ensures
      var d := Decide(im, Some(last), sourceResolver, builder, parse);
      && (Config in d.reasons <==>
            || sourceResolver.configChanged(last)
            || im.env != last.env
            || im.resources != last.resources
            || im.bindings != last.bindings)
      && (Config in d.reasons ==> d.reasons[Config] == Empty)
  {
    FoldedDetections(im, last, sourceResolver, builder, parse);
  }

  /** Commit reason: present exactly when the revision has changed, carrying the revision-change descriptor. */
  lemma CommitReason(im: Image, last: Build, sourceResolver: SourceResolver, builder: BuilderResource, parse: ReferenceParser)
    requires sourceResolver.ready && builder.ready && im.tag == last.tag
    ensures
      var d := Decide(im, Some(last), sourceResolver, builder, parse);
      var revision := sourceResolver.revisionChange(last);
      && (Commit in d.reasons <==> revision.HasChanged())
      && (Commit in d.reasons ==> d.reasons[Commit] == Revision(revision))
  {
    FoldedDetections(im, last, sourceResolver, builder, parse);
  }

  /**
   * Stack reason: never present unless there is a last Build and it
   * succeeded; past the fast path, present exactly when it succeeded and the
   * run-image identifiers differ, carrying both identifiers.
   */
  lemma StackReason(im: Image, lastBuild: Option<Build>, sourceResolver: SourceResolver, builder: BuilderResource, parse: ReferenceParser)
    ensures
      var d := Decide(im, lastBuild, sourceResolver, builder, parse);
      Stack in d.reasons ==> lastBuild.Some? && lastBuild.value.IsSuccess()
    ensures
      sourceResolver.ready && builder.ready && lastBuild.Some? && im.tag == lastBuild.value.tag ==>
      var d := Decide(im, lastBuild, sourceResolver, builder, parse);
      var stack := BuiltWithStack(lastBuild.value, builder.runImage, parse);
      && (Stack in d.reasons <==> lastBuild.value.IsSuccess() && stack.HasChanged())
      && (Stack in d.reasons ==> d.reasons[Stack] == RunImages(stack))
  {
    if sourceResolver.ready && builder.ready && lastBuild.Some? && im.tag == lastBuild.value.tag {
      FoldedDetections(im, lastBuild.value, sourceResolver, builder, parse);
    }
  }

  /**
   * Buildpack reason: never present unless there is a last Build that
   * succeeded or carries the rebuild annotation. Past the fast path it is
   * present exactly when the Build succeeded with drifted buildpacks or
   * carries the annotation; the annotation's empty payload overwrites the
   * drift list.
   */
  lemma BuildpackReason(im: Image, lastBuild: Option<Build>, sourceResolver: SourceResolver, builder: BuilderResource, parse: ReferenceParser)
    ensures
      var d := Decide(im, lastBuild, sourceResolver, builder, parse);
      Buildpack in d.reasons ==>
        lastBuild.Some? && (lastBuild.value.IsSuccess() || AdditionalBuildNeeded(lastBuild.value))
    ensures
      sourceResolver.ready && builder.ready && lastBuild.Some? && im.tag == lastBuild.value.tag ==>
      var d := Decide(im, lastBuild, sourceResolver, builder, parse);
      var last := lastBuild.value;
      var drift := Uncovered(last.buildMetadata, builder.buildpackMetadata.includes);
      && (Buildpack in d.reasons <==>
            || (last.IsSuccess() && exists i :: 0 <= i < |last.buildMetadata| && !builder.buildpackMetadata.includes(last.buildMetadata[i]))
            || BuildNeededAnnotation in last.annotations)
      && (BuildNeededAnnotation in last.annotations ==> d.reasons[Buildpack] == Empty)
      && (BuildNeededAnnotation !in last.annotations && Buildpack in d.reasons ==> d.reasons[Buildpack] == Buildpacks(drift))
  {
    if sourceResolver.ready && builder.ready && lastBuild.Some? && im.tag == lastBuild.value.tag {
      FoldedDetections(im, lastBuild.value, sourceResolver, builder, parse);
      BuildpackChangeHasChanged(lastBuild.value.buildMetadata, builder.buildpackMetadata.includes);
    }
  }

  /**
   * Past the fast path, a Build carrying the rebuild annotation, with any
   * value and whatever its outcome, gives True with buildpack mapped to the
   * empty payload.
   */
  lemma AnnotationRequestsBuild(im: Image, last: Build, value: string, sourceResolver: SourceResolver, builder: BuilderResource, parse: ReferenceParser)
    requires sourceResolver.ready && builder.ready && im.tag == last.tag
    ensures
      var annotated := last.(annotations := last.annotations[BuildNeededAnnotation := value]);
      var d := Decide(im, Some(annotated), sourceResolver, builder, parse);
      && d.status == ConditionTrue
      && Buildpack in d.reasons
      && d.reasons[Buildpack] == Empty
  {
  }

  /** Nothing differs: same tag, same config, same revision, no drift after a success, no annotation gives False with no reasons. */
  lemma NothingChanged(im: Image, last: Build, sourceResolver: SourceResolver, builder: BuilderResource, parse: ReferenceParser)
    requires sourceResolver.ready && builder.ready && im.tag == last.tag
    requires !ConfigDiffers(im, last, sourceResolver)
    requires !sourceResolver.revisionChange(last).HasChanged()
    requires last.IsSuccess() ==> forall i :: 0 <= i < |last.buildMetadata| ==> builder.buildpackMetadata.includes(last.buildMetadata[i])
    requires last.IsSuccess() ==> !BuiltWithStack(last, builder.runImage, parse).HasChanged()
    requires BuildNeededAnnotation !in last.annotations
    ensures Decide(im, Some(last), sourceResolver, builder, parse) == Decision(map[], ConditionFalse)
  {
    BuildpackChangeHasChanged(last.buildMetadata, builder.buildpackMetadata.includes);
  }

  /** Only the revision changed: True with the single reason commit carrying the descriptor. */
  lemma OnlyRevisionChanged(im: Image, last: Build, sourceResolver: SourceResolver, builder: BuilderResource, parse: ReferenceParser)
    requires sourceResolver.ready && builder.ready && im.tag == last.tag
    requires !ConfigDiffers(im, last, sourceResolver)
    requires sourceResolver.revisionChange(last).HasChanged()
    requires last.IsSuccess() ==> forall i :: 0 <= i < |last.buildMetadata| ==> builder.buildpackMetadata.includes(last.buildMetadata[i])
    requires last.IsSuccess() ==> !BuiltWithStack(last, builder.runImage, parse).HasChanged()
    requires BuildNeededAnnotation !in last.annotations
    ensures Decide(im, Some(last), sourceResolver, builder, parse) ==
              Decision(map[Commit := Revision(sourceResolver.revisionChange(last))], ConditionTrue)
  {
    var d := Decide(im, Some(last), sourceResolver, builder, parse);
    FoldedDetections(im, last, sourceResolver, builder, parse);
    BuildpackChangeHasChanged(last.buildMetadata, builder.buildpackMetadata.includes);
    assert d.reasons.Keys == {Commit};
  }

  /** A buildpack the last successful Build used and the Builder no longer includes is listed under buildpack. */
  lemma DriftedBuildpackListed(im: Image, last: Build, sourceResolver: SourceResolver, builder: BuilderResource, parse: ReferenceParser, i: nat)
    requires sourceResolver.ready && builder.ready && im.tag == last.tag
    requires last.IsSuccess() && BuildNeededAnnotation !in last.annotations
    requires i < |last.buildMetadata| && !builder.buildpackMetadata.includes(last.buildMetadata[i])
    ensures
      var d := Decide(im, Some(last), sourceResolver, builder, parse);
      && d.status == ConditionTrue
      && Buildpack in d.reasons
      && d.reasons[Buildpack].Buildpacks?
      && BuildpackInfo(last.buildMetadata[i].id, last.buildMetadata[i].version) in d.reasons[Buildpack].infos
  {
    var bp := last.buildMetadata[i];
    BuildpackReason(im, Some(last), sourceResolver, builder, parse);
    UncoveredMembers(last.buildMetadata, builder.buildpackMetadata.includes, BuildpackInfo(bp.id, bp.version));
  }
}
