# Verification of the guardrails controllers

This project models three parts of the CAST AI guardrails controllers in Dafny and proves properties of them. `dafny
verify dfyconfig.toml` checks all of it. Nothing here runs the controllers.

**The JVM probe webhook** turns a Pod into a list of JSON Patch operations. `Json.dfy` holds JSON, JSON Pointer (RFC
6901), a strict JSON Patch interpreter (RFC 6902) and JSON Merge Patch (RFC 7396). `ProbeModel.dfy` is the Pod and its
serialisation, `ProbeBuilder.dfy` the annotations and the probe constructors, and `PodMutation.dfy` has both the
generated list and an independent mutator that works on the Pod itself. `PatchRefinement.dfy`, `PodRefinement.dfy` and
`PodTheorems.dfy` prove that applying the list is the mutation, exactly when the list applies at all, and that
repeated admissions settle. `Alignment.dfy` has the int32 arithmetic, on top of `Float64.dfy`, which defines the
binary64 numbers and correctly rounded division. `PatchGenerator.dfy` is the generator over heap objects, with its
shared probe pointers, deep copies and appended slices; its methods are proved to emit the list the theorems are
about. `ProbeContents.dfy` and `ProbeOutcomes.dfy` say what the injected probes hold, in terms of annotation names,
configuration and container only.

**The PDB controller** reconciles a workload's PodDisruptionBudget by mutually recursive create, update and fix calls.
`PdbModel.dfy` gives one round as a function on the stored budgets; a round ends or starts over. `PdbTheorems.dfy`
decides when the rounds end, `PdbIdempotence.dfy` what a second run does. `PdbController.dfy` has the calls themselves
on an API server where any call may fail and a failed write may or may not have been applied. `PdbSweeps.dfy`,
`PdbScans.dfy` and `PdbEvents.dfy` add garbage collection, the disruption tracker, the two scans and whole runs of the
controller. `PdbContents.dfy` says what a written budget holds and when one is written, `PoorBudgets.dfy` what the
poor check has to do with the disruptions a budget allows.

**Snapshot capture and rollback** is a protocol of API calls against objects with finalizers, a status subresource and
optimistic concurrency. `SnapshotApi.dfy` has the API server's rules and the cluster class, `Conditions.dfy` the
condition and finalizer lists, `TscInverse.dfy` what is stored about a workload and the inverse patch.
`RollbackModel.dfy` and `RollbackTheorems.dfy` say what a failing and a failure-free rollback may leave and why
repeating is harmless; `RollbackRun.dfy` is the loop itself, and `RollbackOutcomes.dfy` says what becomes of each
snapshot and its workload. `Capture.dfy` is the capture call with arbitrary writers between its steps,
`CaptureTheorems.dfy` what it achieves, and `CaptureRaces.dfy` what its Delete may hit. `TscCapture.dfy` is the
tsc-controller's way into a capture, and `ManagedMarks.dfy` the start-up pass that opens it again.

Conventions. The reconciliation calls take a number of restarts, after which the process stops; what is proved holds
for every such number, so also for a reconciliation that would never end. A server or cluster has a constant
`reliable`: without it any call may fail, and a process that stops is one whose remaining calls all fail unapplied. A
cluster also has `quiet`: without it other clients write snapshots between any two calls of a capture. Time,
detection, parsed annotation values, label syntax, exclusion rules and object naming are parameters. Logs
(`Server.log`, `Cluster.log`) exist only for stating what happened before what.

Where the code and its own comments or tests differ, the model follows the code, and a lemma says how far they agree:

- Alignment emits a replace of `failureThreshold` also for a probe that leaves the field to its default, which strict
  RFC 6902 rejects (`PodTheorems.PatchRefinesMutation`, `PodTheorems.RejectionHappens`).
- The create path writes minAvailable 1 when neither value is set and gives up when both are; the update path writes
  neither and minAvailable. Hence the exact condition in `PdbIdempotence.ReconcileIdempotentIff`.
- With FixPoorPDBs on, a workload whose own resolved budget is poor is deleted and recreated without end
  (`PdbTheorems.TerminationIff`).
- The name `castai-pdb` counts as the controller's own although no workload has it (`PdbGarbage.EncodeName`).
- A partial snapshot is not overwritten, and a rolled-back one that still has finalizers is not recaptured, because Create
  finds the name taken and that counts as success (`CaptureTheorems.ReadyAfterwardsIff`). The test fake's Create overwrites.
- The start-up pass strips `workloads.cast.ai/tsc-managed`, but the lost-snapshot guard that it is meant to unblock reads
  `workloads.cast.ai/castai-tsc-controller-managed`. The pass opens the test in front of the capture
  (`ManagedMarks.SweptOpensGate`) and does nothing about the guard (`ManagedMarks.NoneLostIff`).
- A capture deletes a snapshot by name alone, so it may hit one that another replica has just stored
  (`CaptureRaces.DeleteRaceIff`).
- The poor check compares numbers and text, so a percentage that rounds up to all pods escapes it
  (`PoorBudgets.PoorIffBlocking`, `PoorBudgets.UnnoticedHappens`).

## Model

| member | source | states |
|---|---|---|
| JsonPointer.TokenRoundTrip | controllers/jvm-probe-controller/cmd/pod_mutation.go:498-514 | the escaped form of any key decodes, by the two passes of section 4 of RFC 6901, to the key |
| JsonPointer.EscapeNoSlash | controllers/jvm-probe-controller/cmd/pod_mutation.go:498-514 | the escaped form of any key contains no slash, so it stays one reference token |
| JsonPointer.ParseRender | controllers/jvm-probe-controller/cmd/pod_mutation.go:198-220 | a pointer built from escaped tokens parses back into exactly those tokens |
| JsonPointer.IndexRoundTrip | controllers/jvm-probe-controller/cmd/pod_mutation.go:243 | a container index printed into a path addresses that index again |
| JsonPatch.ApplyConcat | controllers/jvm-probe-controller/cmd/pod_mutation.go:186-191 | applying a list of operations is applying its parts one after the other, failure included |
| JsonPatch.EditIsLocal | controllers/jvm-probe-controller/cmd/pod_mutation.go:305-325 | an operation below a path changes nothing but the value at that path |
| JsonPatch.PutAtLaws | controllers/jvm-probe-controller/cmd/pod_mutation.go:467-478 | what is put at a path is found there, putting twice is putting last, and putting back what was there changes nothing |
| ProbeModel.DecodeEncodePod | controllers/jvm-probe-controller/cmd/pod_mutation.go:121-225 | the JSON of a Pod, with zero fields left out, reads back as the Pod |
| ProbeBuilder.ManagedIsNotRead | controllers/jvm-probe-controller/cmd/annotations.go:51-147 | the managed annotation is none of the annotations the generator reads |
| ProbeBuilder.ManagedChangesNoLookup | controllers/jvm-probe-controller/cmd/pod_mutation.go:193-222 | writing the managed annotation changes no decision of a later run |
| ProbeContents.BuiltProbes | controllers/jvm-probe-controller/cmd/probe_builder.go:104-174 | for every environment, annotation map and configuration: each probe is there exactly when its own flag wants it and TCP applies or its own path is not empty; it checks its own annotated or framework path on the annotated, named or detected port, and each of its numbers is its own annotation or default, doubled threshold and TCP-only tripled delay for startup included |
| ProbeOutcomes.SettingsMean | controllers/jvm-probe-controller/cmd/pod_mutation.go:139-148 | which annotation, under its full name, drives which setting, and what holds without it |
| ProbeOutcomes.SkipsMeans | controllers/jvm-probe-controller/cmd/pod_mutation.go:122-137 | the master switch and the bypass annotation in any case are what makes the webhook do nothing |
| ProbeOutcomes.FrameworkMeans | controllers/jvm-probe-controller/cmd/pod_mutation.go:159-184 | the framework annotation wins over detection and makes a JVM of any container with ports; a generic container without ports is left alone |
| ProbeOutcomes.WorkingProbes | controllers/jvm-probe-controller/cmd/pod_mutation.go:262-282 | the probes the generator works with: an overwrite annotation wants its liveness or readiness probe whatever the flags, startup follows its own flag |
| ProbeOutcomes.StartupCopies | controllers/jvm-probe-controller/cmd/pod_mutation.go:327-355 | the startup probe copies liveness before readiness before the framework probe, an existing one that is not overwritten before the built one, with delay 0, period and threshold of its own settings and success threshold 1 |
| ProbeOutcomes.StartupOperation | controllers/jvm-probe-controller/cmd/pod_mutation.go:341-355 | the only operation on the startup probe puts exactly that probe there, by add or replace as it was missing or present |
| ProbeOutcomes.ProbeOnTheWire | controllers/jvm-probe-controller/cmd/pod_mutation.go:341-355 | the JSON of an emitted probe has its handler and the five numbers under their own names, zeros left out |
| ProbeOutcomes.AdmittedProbes | controllers/jvm-probe-controller/cmd/pod_mutation.go:121-387 | every looked-after container of an admitted Pod: liveness and readiness are the existing ones or check what annotations and framework say, and startup checks what the resulting liveness, else readiness probe does |
| PatchRefinement.UnwritableIsTheGuard | controllers/jvm-probe-controller/cmd/pod_mutation.go:423-439 | the replace of failureThreshold has no target exactly when the probe leaves it at zero and alignment changes it |
| PatchRefinement.MainEffect | controllers/jvm-probe-controller/cmd/pod_mutation.go:305-325 | add, replace and remove for one probe apply and leave the kept, built or delay-free probe |
| PatchRefinement.AlignEffect | controllers/jvm-probe-controller/cmd/pod_mutation.go:366-384 | the alignment operations apply unless the threshold is unwritable, and leave the aligned probe |
| PatchRefinement.ContainerEffect | controllers/jvm-probe-controller/cmd/pod_mutation.go:230-387 | the operations of one container apply exactly when no aligned probe lacks failureThreshold, and then their effect is the direct mutation of the container |
| PodRefinement.SlotPathTokens | controllers/jvm-probe-controller/cmd/pod_mutation.go:243 | every emitted path parses to the container index, the probe and the field it was meant for |
| PodRefinement.PrefixEffect | controllers/jvm-probe-controller/cmd/pod_mutation.go:156-191 | the operations of the first n containers change those containers as the mutator does and no other |
| PodRefinement.MarkEffect | controllers/jvm-probe-controller/cmd/pod_mutation.go:193-222 | the last operation adds exactly the managed annotation, whether or not the Pod has annotations |
| PodTheorems.SilentPod | controllers/jvm-probe-controller/cmd/pod_mutation.go:186-193 | the list is empty exactly when the Pod is skipped or no container needs a change |
| PodTheorems.PatchRefinesMutation | controllers/jvm-probe-controller/cmd/pod_mutation.go:121-387 | for every Pod, configuration and detector: the list applies under strict RFC 6902 unless an aligned probe has no failureThreshold to replace, and the patched document is the serialised result of the direct mutator |
| PodTheorems.PatchIsCanonical | controllers/jvm-probe-controller/cmd/pod_mutation.go:121-387 | with positive thresholds and cap the list always applies and leaves precisely the canonical JSON of the mutated Pod |
| PodTheorems.RejectionHappens | controllers/jvm-probe-controller/cmd/pod_mutation.go:423-439 | a concrete Pod, default configuration and failure-threshold annotation of zero for which the emitted list does not apply |
| PodTheorems.ContainerSettles | controllers/jvm-probe-controller/cmd/pod_mutation.go:230-387 | from the third admission on a container no longer changes, whatever the flags |
| PodTheorems.GeneratorReachesFixpoint | controllers/jvm-probe-controller/cmd/pod_mutation.go:193-222 | without overwrite the generator is silent on its own output, on the second run without clear-delays and on the third in any case |
| PodTheorems.AdmissionSettles | controllers/jvm-probe-controller/cmd/pod_mutation.go:282-384 | also with overwrite the Pod itself settles after two admissions |
| Alignment.CeilIsCeil | controllers/jvm-probe-controller/cmd/pod_mutation.go:424 | for every window, every positive period and every binary64 number nearest to the quotient, however ties are rounded: its ceiling is the integer quotient rounded up, and the conversion to int32 keeps it |
| Alignment.NeededIsCeil | controllers/jvm-probe-controller/cmd/pod_mutation.go:424 | the round-to-nearest-even quotient that alignment uses is such a number, so its ceiling is the integer quotient rounded up |
| Float64.CeilOfNearest | controllers/jvm-probe-controller/cmd/pod_mutation.go:424 | rounding a quotient of 32-bit integers to binary64 never moves it past, or onto the wrong side of, an integer |
| Float64.QuotientIsNearest | controllers/jvm-probe-controller/cmd/pod_mutation.go:424 | the computed quotient is a binary64 number and none is nearer to the exact quotient |
| Alignment.NeededFits | controllers/jvm-probe-controller/cmd/pod_mutation.go:424 | the ceiling of the float64 quotient fits an int32, and is positive exactly for a positive window |
| Alignment.AlignmentCovers | controllers/jvm-probe-controller/cmd/pod_mutation.go:423-439 | the new threshold covers the window or is the cap, even where the int32 product of the guard wraps |
| Alignment.AlignmentLeavesEnough | controllers/jvm-probe-controller/cmd/pod_mutation.go:423-439 | a threshold that covers the window is left alone, unless it is above the cap and the product overflows |
| Alignment.AlignmentIsLeast | controllers/jvm-probe-controller/cmd/pod_mutation.go:423-439 | within the cap the new threshold is the least one from the old one upwards that covers the window |
| Alignment.AlignmentIsIdempotent | controllers/jvm-probe-controller/cmd/pod_mutation.go:415-441 | aligning twice is aligning once, for every probe, window and cap |
| PatchGenerator.ProbeObj.DeepCopy | controllers/jvm-probe-controller/cmd/probe_builder.go:251-273 | a fresh probe object with the same value |
| PatchGenerator.EscapeJSONPatchKey | controllers/jvm-probe-controller/cmd/pod_mutation.go:501-514 | the loop computes the RFC 6901 escape of the key |
| PatchGenerator.TuneStartupProbe | controllers/jvm-probe-controller/cmd/pod_mutation.go:393-402 | the probe it is given, or a fresh one for nil, gets the startup timing and keeps its handler and timeout |
| PatchGenerator.CloneProbeOrEmpty | controllers/jvm-probe-controller/cmd/pod_mutation.go:489-496 | a fresh copy, so the source of the startup probe is never the object that is tuned |
| PatchGenerator.AlignProbe | controllers/jvm-probe-controller/cmd/pod_mutation.go:415-441 | emits the alignment operations of the specification, with the float64 ceiling, and changes no probe |
| PatchGenerator.MainPatches | controllers/jvm-probe-controller/cmd/pod_mutation.go:305-325 | emits the operations of the specification for one probe of a container |
| PatchGenerator.StartupPatches | controllers/jvm-probe-controller/cmd/pod_mutation.go:330-355 | emits the startup probe, tuned on a copy |
| PatchGenerator.AlignPatches | controllers/jvm-probe-controller/cmd/pod_mutation.go:366-384 | aligns copies of the working probes, with the delay zeroed where clear-delays already removed it |
| PatchGenerator.BuildContainerPatches | controllers/jvm-probe-controller/cmd/pod_mutation.go:230-387 | one container: the list is that of the specification and no existing probe object changes |
| PatchGenerator.PatchContainers | controllers/jvm-probe-controller/cmd/pod_mutation.go:156-191 | the loop over the containers, in slice order |
| PatchGenerator.MarkManaged | controllers/jvm-probe-controller/cmd/pod_mutation.go:193-222 | the operation that adds the mark, with the parent map when it is missing |
| PatchGenerator.BuildPodProbePatches | controllers/jvm-probe-controller/cmd/pod_mutation.go:121-225 | the whole generator over heap objects emits the list that the theorems are about and modifies nothing |
| Selectors.CanonDecides | controllers/pdb-controller/cmd/main.go:1285 | selectors with the same canonical form are valid and match alike |
| Selectors.OperatorLaws | controllers/pdb-controller/cmd/main.go:1285 | In of one value is the plain label, of several any of them, and NotIn and DoesNotExist are the opposites |
| Selectors.ValidExprMeans | controllers/pdb-controller/cmd/main.go:1244 | a requirement is valid exactly when some labels meet it, some do not, and its key and values are well-formed |
| Selectors.EnrichTwice | controllers/pdb-controller/cmd/main.go:823-840 | enrichment is a fixpoint after one step |
| Selectors.EnrichMatches | controllers/pdb-controller/cmd/main.go:823-840 | enrichment keeps matching the template it was made for and never widens the selector |
| Selectors.EnrichVisible | controllers/pdb-controller/cmd/main.go:412 | a selector that enrichment changes is seen as changed |
| Selectors.EnrichSelector | controllers/pdb-controller/cmd/main.go:823-840 | the loop over the configured keys computes the enriched selector |
| PdbModel.PdbNameIsOwned | controllers/pdb-controller/cmd/main.go:1512-1514 | every name the controller gives is one it recognises as its own |
| PdbIdempotence.UpdateWrittenIffDifferent | controllers/pdb-controller/cmd/main.go:285-314 | for integers and percentages an update is written exactly when the parsed budgets differ |
| PdbTheorems.AgainShrinks | controllers/pdb-controller/cmd/main.go:396-428 | starting over from a state that does not diverge means one covering budget of the controller is gone and nothing else has changed |
| PdbTheorems.DivergenceStays | controllers/pdb-controller/cmd/main.go:1150-1169 | from a diverging state every round starts over in a diverging state |
| PdbTheorems.ReconcileIsReached | controllers/pdb-controller/cmd/main.go:1173-1508 | a terminating reconciliation ends within one round more than there are budgets of the controller |
| PdbTheorems.TerminationIff | controllers/pdb-controller/cmd/main.go:1094-1508 | the nested create, update and fix calls end if and only if it is not the case that the create path gets to write and FixPoorPDBs deletes what it writes |
| PdbTheorems.TerminationUnlessPoor | controllers/pdb-controller/cmd/main.go:1094-1508 | they end in every state when the budget resolved for the workload is not poor or FixPoorPDBs is off |
| PdbIdempotence.DivergenceHappens | controllers/pdb-controller/cmd/main.go:1094-1170 | a concrete ready workload of two replicas with minAvailable 2 whose reconciliation never ends |
| PdbIdempotence.DoneIsStable | controllers/pdb-controller/cmd/main.go:1173-1508 | a round that ends is repeated without effect, except after writing the default budget |
| PdbIdempotence.ReconcileIdempotentIff | controllers/pdb-controller/cmd/main.go:336-341 | a second run leaves the store as the first left it exactly when the first did not write the default budget of a workload with neither value set; a third run never changes anything |
| PdbIdempotence.FlipHappens | controllers/pdb-controller/cmd/main.go:336-341 | the same workload with neither value set: a second run changes what the first wrote |
| PdbIdempotence.CreatedBudgetIsAlone | controllers/pdb-controller/cmd/main.go:1488-1496 | nothing covers the workload when the create path adds its budget, and afterwards only that budget does, if the selector matches its own template |
| PdbContents.WrittenBudgets | controllers/pdb-controller/cmd/main.go:317-445 | every budget that a reconciliation leaves and that was not there before was created for the workload or updates one that covers it; its policy is the annotated one, else that of the ConfigMap, and each value is in its own field, from the annotations if either is set, else from the ConfigMap; with FixPoorPDBs it is not poor |
| PdbContents.SettledBudget | controllers/pdb-controller/cmd/main.go:285-314 | once a round changes nothing, the controller budget that covers the workload has that policy and values that print alike |
| PdbContents.CreatedExactlyWhen | controllers/pdb-controller/cmd/main.go:236-265 | with nothing covering the workload and its name free, a budget is created exactly when all replicas are ready, and available for a Deployment, and not both values are given |
| PdbContents.LeftAlone | controllers/pdb-controller/cmd/main.go:1173-1260 | a bypassed or excluded workload, or one without a selector, changes nothing |
| PdbContents.TooFewReplicas | controllers/pdb-controller/cmd/main.go:218-235 | below two replicas, or without a count, the budget of the workload name goes and nothing else changes |
| PdbContents.ForeignBudgetFirst | controllers/pdb-controller/cmd/main.go:1311-1328 | a covering budget of someone else stops every write; the own covering budgets go exactly when a covering one is Helm-style |
| PdbContents.ExactBudgetSuffices | controllers/pdb-controller/cmd/main.go:1272-1309 | if the own budgets with exactly the enriched selector hold what they should and there is one, nothing is written or deleted, whatever other own budgets cover the workload |
| PdbContents.NameClasses | controllers/pdb-controller/cmd/main.go:1512-1530 | a name with the prefix is owned or Helm-style, never both; no other name is either |
| PoorBudgets.PoorIffBlocking | controllers/pdb-controller/cmd/main.go:1890-1908 | for well-formed values a budget allows no disruption of n healthy pods, percentages rounded up, if and only if it is poor or asks for more pods than there are, for a percentage other than 100 that rounds up to all, or for a zero written with several digits; for numbers up to n, 100% and 0% poor is exactly allowing none |
| PoorBudgets.UnnoticedHappens | controllers/pdb-controller/cmd/main.go:1890-1908 | 75% of three pods allows no disruption and is not poor |
| PoorBudgets.WrittenBudgetsAllow | controllers/pdb-controller/cmd/main.go:1094-1170 | with FixPoorPDBs a budget that a reconciliation has written allows a disruption or is one of those three |
| PoorBudgets.ScannedPoor | controllers/pdb-controller/cmd/main.go:1836-1856 | the scan takes a missing replica count for one; what it counts as poor blocks, and what blocks is poor but for those three |
| PdbServer.Server.List | controllers/pdb-controller/cmd/main.go:1361 | the budgets of one namespace, or a failure |
| PdbServer.Server.Get | controllers/pdb-controller/cmd/main.go:1379 | the budget of that name, its absence, or a failure |
| PdbServer.Server.Create | controllers/pdb-controller/cmd/main.go:1496-1500 | stores the budget if the name is free; a failed call may or may not have done so |
| PdbServer.Server.UpdateSpec | controllers/pdb-controller/cmd/main.go:436 | replaces the specification of the named budget and nothing else |
| PdbServer.Server.Delete | controllers/pdb-controller/cmd/main.go:420 | removes the named budget; a failed call may or may not have done so |
| PdbController.ScanCovering | controllers/pdb-controller/cmd/main.go:1272-1309 | the loop settles on the first exact budget of the controller, else its first, and notices every foreign one |
| PdbController.ChoiceFiltered | controllers/pdb-controller/cmd/main.go:1272-1309 | looking only at the namespace makes no difference to the choice |
| PdbController.HasCastaiHelm | controllers/pdb-controller/cmd/main.go:1546-1552 | finds a CAST Helm-style budget if there is one |
| PdbController.DeleteLeftovers | controllers/pdb-controller/cmd/main.go:1545-1567 | with such a budget, exactly the covering budgets of the controller go, from a listing that may be stale |
| PdbController.DeleteIfUnderReplicated | controllers/pdb-controller/cmd/main.go:218-235 | below two replicas the budget of that name goes and nothing else |
| PdbController.LogAndFixPoorPDBConfig | controllers/pdb-controller/cmd/main.go:1094-1170 | only a poor budget of a workload that is not bypassed is deleted, and the reconciliation starts over, for every workload, state and number of restarts |
| PdbController.UpdateExistingPDB | controllers/pdb-controller/cmd/main.go:317-446 | without failing calls it returns only where the update round and the rest of the reconciliation end, and with that state; whatever fails, no budget of someone else is touched |
| PdbController.DeleteAndRecreate | controllers/pdb-controller/cmd/main.go:396-428 | removes the budget and, if it returns, has left the final state of the remaining store |
| PdbController.WriteAndFix | controllers/pdb-controller/cmd/main.go:434-445 | the written specification is what the poor check sees |
| PdbController.RaceCheck | controllers/pdb-controller/cmd/main.go:1351-1376 | without failing calls it reports a covering budget if and only if there is one |
| PdbController.CreateAndFix | controllers/pdb-controller/cmd/main.go:1488-1507 | the budget is created in a state where none covers the workload and the name is free |
| PdbController.WriteResolved | controllers/pdb-controller/cmd/main.go:1426-1507 | updates, replaces or creates the budget of that name as the specification says |
| PdbController.CreatePDBForWorkload | controllers/pdb-controller/cmd/main.go:1173-1508 | for every workload, state and number of restarts: foreign budgets stay, writes stay within the workload, every Create happens with no covering budget and the workload ready; without failing calls it returns only where the rounds end, with their final state, and it does return when they end and restarts suffice |
| PdbGarbage.DecodeName | controllers/pdb-controller/cmd/main.go:1615 | decoding a budget name gives back the workload it was made from, for every workload name |
| PdbGarbage.EncodeName | controllers/pdb-controller/cmd/main.go:1610-1615 | every other name the controller claims encodes a workload too, with the one exception castai-pdb |
| PdbGarbage.GarbageCollectOrphanedPDBs | controllers/pdb-controller/cmd/main.go:1603-1667 | without failing deletions exactly the orphaned and under-replicated budgets go; a lookup that fails keeps its budget |
| DisruptionTracker.Tracker.Scan | controllers/pdb-controller/cmd/main.go:1912-1974 | one scan keeps the running times of what is still blocked, starts new ones and drops the rest |
| DisruptionTracker.Tracker.Reset | controllers/pdb-controller/cmd/main.go:813-815 | nothing is tracked after a reset |
| DisruptionTracker.TrackerAgreesWithHistory | controllers/pdb-controller/cmd/main.go:1912-1974 | after any history the tracker holds exactly what the latest scan saw blocked, each with the first scan of its current streak |
| PdbMultiScan.CleanupMultiplePDBsForWorkload | controllers/pdb-controller/cmd/main.go:2022-2049 | what one workload makes redundant goes, although the listing is stale |
| PdbMultiScan.ScanAllPDBsForMultiplePDBs | controllers/pdb-controller/cmd/main.go:1977-2017 | without failing calls the scan removes exactly the controller budgets that cover a workload, not bypassed, which a CAST Helm-style budget covers too |
| PdbPoorScan.NeverPoorEnds | controllers/pdb-controller/cmd/main.go:1157-1169 | a workload whose resolved budget is not poor has a terminating reconciliation in every state |
| PdbPoorScan.ReconcileGrowth | controllers/pdb-controller/cmd/main.go:1173-1508 | a reconciliation that ends adds at most one budget |
| PdbPoorScan.CheckAgainst | controllers/pdb-controller/cmd/main.go:1836-1856 | for every workload: a foreign budget goes only if it is the one at hand, is poor for the workload and has exactly its selector, and then it does go if no call fails |
| PdbPoorScan.ScanAllPDBsForPoorConfig | controllers/pdb-controller/cmd/main.go:1814-1888 | for every listing: with failing calls or a stop anywhere, at most the foreign budgets poor for a listed, not bypassed workload with the same selector go; without failing calls a scan that gets to its end has deleted exactly those, and it gets there when no listed workload has a poor resolved budget and restarts suffice |
| PdbRuns.RoundsKeepForeign | controllers/pdb-controller/cmd/main.go:1094-1508 | any number of rounds, even of a reconciliation that never ends, leaves foreign budgets alone |
| PdbRuns.DeletePDBForWorkload | controllers/pdb-controller/cmd/main.go:1570-1596 | removes the budget of that name and nothing else |
| PdbRuns.HandleWorkloadUpdate | controllers/pdb-controller/cmd/main.go:988-1067 | a workload that becomes bypassed loses the budget of its name, one that stays bypassed is left alone, any other is reconciled; no foreign budget is touched |
| PdbRuns.Run | controllers/pdb-controller/cmd/main.go:856-985 | over any sequence of create, update, delete, garbage-collection, multi-budget and poor-configuration steps, for any workloads, failures and stops: no foreign budget appears or changes, and one goes only if a poor-configuration scan with FixPoorPDBs listed a workload, not bypassed and with exactly its selector, that it is poor for |
| Conditions.SetCondition | snapshot/conditions.go:32-48 | overwrites the entry in place or appends, and leaves the list that the specification says |
| Conditions.GetConditionStatus | snapshot/conditions.go:60-67 | the status of the first entry of the kind, else Unknown |
| Conditions.SetIsLocal | snapshot/conditions.go:32-48 | decides what is found for its kind and for no other, and keeps one entry per kind |
| Conditions.ConditionHistory | snapshot/conditions.go:32-67 | after any calls there is one entry per kind with the status, reason, message and generation written last and the time of the call that last changed the status |
| Finalizers.RemoveInPlace | snapshot/finalizer.go:54-63 | the compaction into the same backing array leaves the other names in order |
| Finalizers.Add | snapshot/finalizer.go:26-32 | appends the name unless it is there |
| Finalizers.AddThenRemove | snapshot/finalizer.go:54-63 | removing undoes adding |
| SnapshotApi.RunInterferes | snapshot/capture.go:108-111 | no sequence of writes by any clients gives an object new contents under an old resource version |
| SnapshotApi.OwnWritesKeepSpecs | snapshot/capture.go:93-137 | none of the write requests the code uses changes the specification of an object that stays |
| SnapshotCluster.Cluster.Write | snapshot/interfaces.go:52-60 | one request under the API server rules, applied or not when it fails |
| SnapshotCluster.Cluster.PatchWorkload | controllers/tsc-controller/cmd/rollback.go:78-87 | a merge patch of one workload, applied or not when it fails |
| TscInverse.SpecRoundTrip | apis/workloads/v1/types.go:55-66 | serialisation loses only the difference between an empty list and nil, which the flag makes up for |
| TscInverse.InverseRestores | controllers/tsc-controller/cmd/rollback.go:97-126 | capture, storage and inverse patch bring back the absent, empty or listed value on any later workload and change no other member |
| TscInverse.NestedPatchMisses | controllers/tsc-controller/cmd/rollback.go:116-126 | a patch along one chain of members leaves every member off that chain alone |
| TscInverse.MergeTwice | controllers/tsc-controller/cmd/rollback.go:58-95 | any JSON merge patch is idempotent |
| RollbackModel.ProgressStep | snapshot/rollback.go:55-131 | one pass of the loop with any failures keeps the run harmless to repeat |
| RollbackTheorems.CompleteStep | snapshot/rollback.go:55-131 | one failure-free pass does all there is to do for its snapshot and its target |
| RollbackTheorems.CompleteIsProgress | snapshot/rollback.go:55-131 | a failure-free run is one of the runs that may happen |
| RollbackTheorems.ProgressTwice | snapshot/rollback.go:55-131 | any number of failing runs in a row counts as one |
| RollbackTheorems.RollbackSurvivesFailure | snapshot/rollback.go:55-131 | a failing or stopped run followed by a failure-free one leaves the same workloads and flags as one failure-free run: what was due is restored, the rest untouched, and all that can be looked up is rolled back |
| RollbackTheorems.TwoSnapshotsDisagree | snapshot/rollback.go:93-130 | one pending snapshot per workload is needed for that: with two different ones, failing and repeating ends with another value |
| RollbackTheorems.CapturedComesBack | controllers/tsc-controller/cmd/rollback.go:97-126 | a workload whose snapshot came from the capture path gets its captured constraints back and keeps the rest |
| RollbackOutcomes.SnapshotOutcome | snapshot/rollback.go:55-131 | after a failure-free run with one pending snapshot per workload: a Deployment or StatefulSet stored under the recorded UID has its recorded constraints back, all else of it as it was, and its snapshot says RollbackApplied; one missing or with another UID has its snapshot say TargetGone; a snapshot of any other kind, or rolled back before, is unchanged |
| RollbackOutcomes.OthersUntouched | snapshot/rollback.go:55-131 | a workload that no pending snapshot records is unchanged |
| RollbackOutcomes.TallyMeans | snapshot/rollback.go:49-138 | without failing calls exactly the pending snapshots of other kinds are errors, those of the two kinds are rolled back, the others skipped |
| RollbackRun.LookupTarget | controllers/tsc-controller/cmd/rollback.go:29-45 | tells a matching target from a missing or mismatched one, and both from a failed lookup |
| RollbackRun.ApplyInversePatch | controllers/tsc-controller/cmd/rollback.go:58-95 | patches only a target with the recorded UID, or nothing |
| RollbackRun.RemoveFinalizer | snapshot/finalizer.go:49-79 | releases the finalizer, and with it a snapshot being deleted, or changes nothing |
| RollbackRun.MarkRolledBack | snapshot/rollback.go:69-91 | nothing, the mark alone, or the mark and the released finalizer |
| RollbackRun.RestoreAndMark | snapshot/rollback.go:93-130 | the mark comes only after a successful inverse; a failed one is recorded as such |
| RollbackRun.RollbackOne | snapshot/rollback.go:55-131 | a rolled-back snapshot gets no write; without failures the pass does all there is to do and its verdict is decided by flag and kind |
| RollbackRun.Rollback | snapshot/rollback.go:36-138 | every listed snapshot is counted once as rolled back, skipped or error, and without failing calls errors are exactly the unknown kinds; a nil result means nothing is pending, every mark is preceded by its inverse on the recorded UID, and the run is safe to repeat |
| Capture.WriteKeepsSpecs | snapshot/capture.go:93-137 | no write of a capture changes the specification of an existing snapshot |
| Capture.StatusIsSafe | snapshot/capture.go:113-132 | a status write that is accepted was made from the status stored at that moment, so no concurrent condition is lost |
| Capture.DeleteSnapshot | snapshot/capture.go:80-82 | only a snapshot created by this call or read as rolled back is deleted, and the latter is still the one that was read unless its resource version has changed |
| CaptureRaces.DeleteHitsOnlyNewer | snapshot/capture.go:80-82 | the Delete after a rolled-back read hits a ready snapshot that is not rolled back only if it has another resource version than the one read |
| CaptureRaces.DeleteRaceIff | snapshot/capture.go:72-93 | requests of other captures can put a ready snapshot where a rolled-back one was read, before the Delete arrives, if and only if the one read had no finalizers |
| CaptureRaces.CleanupHitsReady | snapshot/capture.go:133-138 | the clean-up Delete after a status write that was applied although it failed hits a ready snapshot and marks it for deletion, with its contents kept |
| Capture.AddFinalizer | snapshot/finalizer.go:21-46 | adds the finalizer to the snapshot this call created |
| Capture.RetryStatus | snapshot/capture.go:113-132 | at most five attempts, and a conflict is reported only after the fifth |
| Capture.Store | snapshot/capture.go:93-140 | create, finalizer, status; without failures and other writers the snapshot is complete and ready, or the name was taken |
| Capture.CaptureIfAbsent | snapshot/capture.go:38-142 | with any interleaving of other writers every write is safe, the build function runs only when it may, and each result means what it says; without failures and other writers the outcome is exact |
| CaptureTheorems.ReadyAfterwardsIff | snapshot/capture.go:72-98 | a nil result leaves a ready snapshot exactly when there was one, or a rolled-back one without finalizers, or none for an unmanaged workload |
| CaptureTheorems.FreshCondition | snapshot/capture.go:119-131 | the one condition of a snapshot just captured: Ready, True, Captured, its message and generation |
| CaptureTheorems.PartialSnapshotStays | snapshot/capture.go:83-98 | a concrete partial snapshot that every later call leaves as it is, against the comment in the code |
| CaptureTheorems.CaptureThenRollback | controllers/tsc-controller/cmd/main.go:495-525 | a captured value survives storage, changes to the workload and failing rollback runs, and comes back, as long as the workload is there under the captured kind, namespace, name and UID |
| ManagedMarks.StripIsExact | controllers/tsc-controller/cmd/main.go:691-697 | the patch takes off the mark, keeps the UID and changes no other member, so no other annotation |
| ManagedMarks.ReconcileOneManagedWorkload | controllers/tsc-controller/cmd/main.go:676-713 | strips the mark exactly when the snapshot is missing |
| ManagedMarks.ReconcileManagedAnnotations | controllers/tsc-controller/cmd/main.go:636-672 | only workloads with the mark tsc-managed and no snapshot are stripped; without failing calls all of them are, in both kinds |
| ManagedMarks.SweptOpensGate | controllers/tsc-controller/cmd/main.go:475-478 | after such a pass the test of tsc-managed in front of the capture stops no workload whose snapshot is missing |
| ManagedMarks.KeysAgreeIff | snapshot/interfaces.go:62-77 | the guard of the capture call reads the stripped annotation for the controller name tsc only, which is not the name in use |
| ManagedMarks.NoneLostIff | snapshot/capture.go:63-69 | after such a pass no capture is lost if and only if the controller name is tsc or none would have been lost before it |
| ManagedMarks.GuardStaysClosed | snapshot/capture.go:63-69 | with the name in use, a workload annotated castai-tsc-controller-managed that has no snapshot is not touched by the pass and its capture is lost |
| TscCapture.CaptureTscOriginal | controllers/tsc-controller/cmd/main.go:461-536 | nothing is captured exactly when snapshots are off or the workload is marked or bypassed; otherwise the outcome is that of the capture call |

## Left out

- HTTP and TLS servers, admission decoding, informers, leader election, metrics, signals: input and output only.
- Image and environment detection with its regular expressions: a function of the container's other fields and its ports.
- Number and boolean parsing of annotations: the model has the parsed values; strings compared as text stay text.
- The string order in which parsed selectors are printed: selectors are compared as label maps with a multiset of expressions.
- Label syntax: a predicate on keys and values. Exclusion rules: a predicate on workloads.
- The API server's own validation of a write: a write it refuses is a failing call.
- Logging, its rate limits, and the warning about several foreign budgets: no effect on stored objects.
- Waiting for a deletion, poll intervals and timers: a deletion is visible at once.
- reconcileAllDefaultPDBs: a guard around the reconciliation that is modelled, in a loop.
- ConfigMap parsing, the YAML dump and the TSC admission pipeline: straight-line gates and formatting.
- SHA-256 and name truncation in snapshot names: the name is a parameter, and no lemma relies on its shape.
- The strategic merge patch that strips a managed mark: modelled as a JSON merge patch, which acts alike on a map of strings.
- The times and the controller version stored in a snapshot, and the applied constraints: never read by the rollback.
- reconcileOrphanedSnapshots and removeSnapshotFinalizer: loops around the finalizer removal that is modelled.
- captureTSCOriginal has no caller in the repository; it is modelled as if called with any workload.
- PdbPoorScan.ScanAllPDBsForPoorConfig: that the scan gets to its end is promised for workloads whose resolved budget is not poor; what it deletes is promised for all.
- RollbackTheorems.RollbackSurvivesFailure: says nothing about finalizers, since a removal that failed is not tried again on a snapshot already marked.
- RollbackRun.Rollback: no other writer between its calls; the capture call has them.
