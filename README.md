# kpack build-trigger decision, in Dafny

This project models the decision the kpack Image reconciler makes before it
creates a Build (`buildNeeded` in `pkg/reconciler/image/build_needed.go`).
From the Image's desired state, the most recent Build (possibly absent), the
SourceResolver and the Builder, it returns a condition status (Unknown, True
or False) and a map from reason kind (config, commit, buildpack, stack) to a
payload saying what changed.

The decision runs in a fixed order:

1. readiness gate: a SourceResolver or Builder that is not ready gives
   Unknown with no reasons;
2. tag fast path: no last Build, or a last Build with another tag, gives True
   with the single reason config;
3. otherwise every detector runs and writes into one reason map: config
   (source config, env, resources or bindings differ), commit (the resolved
   revision changed), buildpack and stack drift (only after a successful
   Build), and the rebuild annotation (which writes buildpack with an empty
   payload, overwriting any drift list);
4. an empty map gives False, a non-empty one True with that map.

Files:

- `wrappers.dfy`: `Option`.
- `v1alpha1.dfy`: the resource snapshots the decision reads (Image, Build,
  SourceResolver, BuilderResource, the condition status). Collaborator
  queries whose code is not part of this model are total functions carried
  in the snapshot: `SourceResolver.configChanged`,
  `SourceResolver.revisionChange`, and the Builder's buildpack list, known
  only through its `includes` query. Env, resources and bindings are opaque
  values the decision only compares; `==` on them stands for Kubernetes'
  semantic equality. The revision-change descriptor keeps only whether it
  counts as a change, plus an opaque detail passed through as the commit
  payload.
- `build_needed.dfy` (module `ImageReconciler`): the decision itself.
  `BuildNeeded` and `CollectReasons` fill the reason map in place, detector
  after detector, as the Go does; `BuiltWithBuildpacks` is the loop that
  collects drifted buildpacks; `BuiltWithStack` compares run-image
  identifiers, with `parse` standing for `name.ParseReference(..).Identifier()`
  (a partial function, `None` when the reference does not parse). Their
  specification is `Decide`: each detector emits its reason as a value and
  `Fold` combines them, a later reason of the same kind overwriting an
  earlier one. The reason payload is a datatype (`Payload`: empty, revision
  change, buildpack list, stack change), which settles the Go code's
  mismatch between its declared result `map[string]string` and the
  `map[string]interface{}` it returns.
- `build_needed_properties.dfy` (module `BuildNeededProperties`): the
  properties of the decision, the filter and the fold.
- `nil_reasons_map.dfy` (module `NilReasonsMap`): the nil reason map as
  written, and the proof that the corrected code returns `Decide`.

The stack detector fails open: when the last Build recorded no run image or
either reference fails to parse, it returns the zero change (both
identifiers empty), which reports no change.

## Model

| member | source | states |
|---|---|---|
| `ImageReconciler.BuildNeeded` | pkg/reconciler/image/build_needed.go:11-59 | returns exactly `Decide`; Unknown iff the resolver or the builder is not ready; True iff the returned reason map is non-empty |
| `ImageReconciler.CollectReasons` | pkg/reconciler/image/build_needed.go:22-52 | writing the detectors' reasons into a map made empty gives the fold of the detectors' emissions, later writes of a kind overwriting earlier ones |
| `ImageReconciler.BuiltWithBuildpacks` | pkg/reconciler/image/build_needed.go:74-83 | the loop returns exactly the last Build's buildpacks not included by the Builder, projected to (id, version), in their original order (`Uncovered`) |
| `ImageReconciler.UncoveredAppend` | pkg/reconciler/image/build_needed.go:75-82 | the filter distributes over concatenation, so it keeps the input order |
| `ImageReconciler.BuiltWithStack` | pkg/reconciler/image/build_needed.go:90-114 | no recorded run image or a reference that does not parse gives the zero change; `StackChange.HasChanged` holds iff both references parse to different identifiers; whenever both parse the result carries the two identifiers (equal ones included) |
| `ImageReconciler.FoldEmit` | pkg/reconciler/image/build_needed.go:28-50 | one more detector changes the folded map only at its own kind, and only when it fires |
| `BuildNeededProperties.UncoveredLength` | pkg/reconciler/image/build_needed.go:75-82 | the drift list is never longer than the last Build's buildpack list |
| `BuildNeededProperties.UncoveredMembers` | pkg/reconciler/image/build_needed.go:76-79 | an entry is in the drift list iff some buildpack of the last Build is not included and projects to it |
| `BuildNeededProperties.UncoveredAllRejected` | pkg/reconciler/image/build_needed.go:76-79 | when no buildpack is included, the drift list is all of them, position by position |
| `BuildNeededProperties.BuildpackChangeHasChanged` | pkg/reconciler/image/build_needed.go:70-83 | `BuildpackChange.HasChanged` on the collected list holds iff some buildpack of the last Build is not included by the Builder |
| `BuildNeededProperties.FoldKeys` | pkg/reconciler/image/build_needed.go:22-52 | a reason kind is in the map iff some detector wrote it |
| `BuildNeededProperties.FoldLastWriterWins` | pkg/reconciler/image/build_needed.go:40-50 | a kind written more than once keeps the payload of its last write |
| `BuildNeededProperties.FoldEmptyIff` | pkg/reconciler/image/build_needed.go:54-58 | the map is empty iff no detector fired |
| `BuildNeededProperties.FoldFive` | pkg/reconciler/image/build_needed.go:24-52 | folding five detectors' emissions performs their conditional writes in order |
| `BuildNeededProperties.FoldedDetectionsShape` | pkg/reconciler/image/build_needed.go:24-52 | the folded detectors are the five conditional writes of config, commit, buildpack drift, stack drift and the annotation, in that order |
| `BuildNeededProperties.FoldedDetections` | pkg/reconciler/image/build_needed.go:24-52 | reason kind by reason kind: when each is present and which payload it carries |
| `BuildNeededProperties.ReadinessGate` | pkg/reconciler/image/build_needed.go:12-14 | a resolver or builder that is not ready gives Unknown with no reasons, whatever the other inputs |
| `BuildNeededProperties.TagFastPath` | pkg/reconciler/image/build_needed.go:16-20 | no last Build, or a different tag, gives True with exactly the reason config and an empty payload |
| `BuildNeededProperties.StatusAgreement` | pkg/reconciler/image/build_needed.go:12-58 | Unknown iff not ready; True iff there are reasons; False iff ready, same tag and no detector fires, and then no reasons |
| `BuildNeededProperties.ReasonsAreFolded` | pkg/reconciler/image/build_needed.go:54-58 | past the fast path the decision's reasons are exactly the folded detector reasons |
| `BuildNeededProperties.ConfigReason` | pkg/reconciler/image/build_needed.go:24-30 | past the fast path, config is present iff `ConfigDiffers` (the resolver reports a config change, or env, resources or bindings differ), with an empty payload |
| `BuildNeededProperties.CommitReason` | pkg/reconciler/image/build_needed.go:32-35 | past the fast path, commit is present iff the revision changed, and carries the revision-change descriptor |
| `BuildNeededProperties.StackReason` | pkg/reconciler/image/build_needed.go:37-47 | stack is never present unless the last Build succeeded; past the fast path it is present iff the Build succeeded and the identifiers differ, carrying them |
| `BuildNeededProperties.BuildpackReason` | pkg/reconciler/image/build_needed.go:37-51 | buildpack is never present unless the last Build succeeded or carries the rebuild annotation; past the fast path it is present iff drift after success or the annotation; the annotation's empty payload overwrites the drift list |
| `BuildNeededProperties.AnnotationRequestsBuild` | pkg/reconciler/image/build_needed.go:116-119 | past the fast path, the rebuild annotation (`AdditionalBuildNeeded`, written at lines 49-51), with any value and whatever the Build's outcome, gives True with buildpack mapped to the empty payload |
| `BuildNeededProperties.NothingChanged` | pkg/reconciler/image/build_needed.go:22-56 | same tag and no config, revision, drift or annotation gives False with no reasons |
| `BuildNeededProperties.OnlyRevisionChanged` | pkg/reconciler/image/build_needed.go:32-58 | when only the revision changed the decision is True with the single reason commit carrying the descriptor |
| `BuildNeededProperties.DriftedBuildpackListed` | pkg/reconciler/image/build_needed.go:37-42 | a buildpack the last successful Build used and the Builder does not include is listed under buildpack, when no annotation overwrites it |
| `NilReasonsMap.BuildNeededAsWritten` | pkg/reconciler/image/build_needed.go:11-58 | the decision with the reason map left nil: the gate and fast path return as before, a panic only happens past the fast path, and a False result has no reasons |
| `NilReasonsMap.NilMapPanicsOnAnyWrite` | pkg/reconciler/image/build_needed.go:22-28 | writing into the nil map panics at the first write |
| `NilReasonsMap.MadeMapFolds` | pkg/reconciler/image/build_needed.go:22-52 | the same writes into a made empty map compute the fold |
| `NilReasonsMap.AsWrittenPanicsExactlyOnReasons` | pkg/reconciler/image/build_needed.go:22-58 | the code as written panics iff the corrected decision reports reasons past the fast path, and otherwise returns the corrected decision |
| `NilReasonsMap.CorrectedNeverPanics` | pkg/reconciler/image/build_needed.go:22-58 | with the map made empty first, the writes never panic and give `Decide` |
| `NilReasonsMap.ConfigChangePanics` | pkg/reconciler/image/build_needed.go:22-28 | a concrete input (ready, same tag, source config changed) on which the code as written panics and the corrected decision is True with config |

## Findings

| source | as written | input that shows it | evidently intended | confidence | as-written member | corrected member |
|---|---|---|---|---|---|---|
| pkg/reconciler/image/build_needed.go:22-50 | `reasons` is declared as a nil map and then assigned to; in Go an assignment into a nil map panics (the file as shown does not compile, because line 58 returns `map[string]interface{}` where line 11 declares `map[string]string`; the panic is what remains once that mismatch is fixed) | dependencies ready, last Build with the Image's tag, `ConfigChanged` true (`ConfigChangePanics`) | the map is made empty before the first write, and the decision is True with the reasons found | high (Go semantics of nil maps); not executed | `NilReasonsMap.BuildNeededAsWritten` | `ImageReconciler.CollectReasons` |

## Left out

- pkg/notary/image_signer.go and pkg/apis/build/v1alpha1/notary_types.go: image signing is file and network I/O over third-party clients, and the notary types are plain configuration records; neither takes part in the decision.
- Kubernetes' semantic equality is not modelled in itself: env, resources and bindings are opaque values whose `==` stands for it, so their contents (env `valueFrom` sources, resource quantities, binding references) are not modelled.
- The revision-change descriptor's concrete kinds (git, blob, registry) are not modelled: it is an opaque detail plus whether it counts as a change, the only thing the decision asks of it.
- `SourceResolver.ConfigChanged`, `SourceResolver.RevisionChange` and `BuildpackMetadataList.Include` are defined in files that are not part of this model; they are arbitrary total functions, and every property holds for all of them.
- The registry-reference grammar of `name.ParseReference` and `Identifier()` is not part of this model; `parse` is an arbitrary partial function from reference to identifier.
- The text of the rebuild annotation key is defined in a file that is not part of this model; `BuildNeededAnnotation` is a constant of unspecified value, and no property depends on its text.
- The reason keys are the `ReasonKind` datatype rather than the API package's string constants, and a Go nil result map is the empty map.
- The Go code returns `map[string]interface{}` from a function declared to return `map[string]string`, which does not compile; the `Payload` datatype gives the intended typing and nothing of the mismatch is modelled.
- The reconciler loop that calls the decision and records its result as an Image condition is controller plumbing and is not modelled. The decision is a function of its inputs, so invoking it twice on the same snapshot gives the same result by construction.
