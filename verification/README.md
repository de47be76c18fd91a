# The image builder operator's build protocol

This project models the ImageBuild controller and the git webhook of the image builder operator, and
proves what the two guarantee together.

An ImageBuild says which source to build into which image. The controller keeps a Shipwright Build in
step with its specification and creates BuildRuns: one when the build inputs change, and, where
rebuilds on commit are on, one when a push is due. The webhook records pushes in the ImageBuild's
status. Two writers thus share one status object; time windows gate builds; counters give BuildRuns
deterministic names, so that a pass repeated after a stop finds what it had made; and an annotation
stands in for "what was last built".

## How the model is laid out

| file | what it holds |
|---|---|
| `image_builds.dfy` | the ImageBuild resource and the objects it refers to; constants |
| `names.dfy` | BuildRun names and counters, with 64-bit wrap-around |
| `json.dfy`, `last_spec.dfy` | the annotation: JSON text, and the build inputs in it |
| `merge_patch.dfy` | a client's status difference and the server's merge of it |
| `cluster.dfy` | the cluster, and the effect of each API write of a pass |
| `reconcile_spec.dfy` | what a pass does, as a function: the writes in order, the world after, the result |
| `api_server.dfy`, `controller.dfy`, `webhook.dfy` | the API server and the two processes as classes that work step by step |
| `guards.dfy` | the rule each write of a pass obeys |
| `protocol.dfy` | both writers and the environment as one machine over single writes; its invariant |
| `safety.dfy`, `refinement.dfy` | safety over whole runs; the two processes take part in them |
| `convergence.dfy` | one pass, and passes over an unchanging cluster |
| `answers.dfy`, `builds.dfy`, `outcomes.dfy` | what a pass answers, makes and leaves, written out in the objects' own fields |
| `complete_passes.dfy`, `latest_image.dfy`, `progress.dfy` | runs whose passes all complete |
| `edits.dfy` | edits and builds over such runs |
| `example.dfy` | a concrete cluster for the lemmas that exhibit a failure |
| `limits.dfy`, `drift_limits.dfy` | what stopping between two writes costs; when builds are repeated, hidden or doubled |
| `interleaving.dfy` | reads and patches of the two writers interleaved |
| `deliveries.dfy` | what webhook requests guarantee, written out in the same way |
| `label_index.dfy` | the label by which the webhook finds ImageBuilds |

Theorems are about one of three levels.

1. **Complete passes.** Each pass and each delivery is one step. API calls fail only for a missing
   object or one that somebody else controls. Modules Convergence, Answers, Outcomes, CompletePasses,
   LatestImage, Progress, Edits; Builds is about stopped passes too.
2. **Stopped passes.** As before, but a pass may stop after any of its API writes, for any reason. The
   machine in Protocol even lets deliveries, time and edits come between two writes of a pass, as long
   as each write still obeys its rule. Modules Guards, Protocol, Safety, LabelIndex, Limits and
   DriftLimits; Controller has the processes do it, with a budget of writes.
3. **Interleaved.** Each writer reads the status and later patches it, and the other may come in
   between. Module Interleaving.

Answers, Builds, Outcomes and Deliveries say what the operations mean without using the definitions
the operations are built from: names, labels, waits and comparisons are written out, so that the two
descriptions check each other. A want of a pass (`Answers.Wanted`) is what it would do by the present
specification, status, runs and clock: wait, create a run of one family, or just report.

The environment may do anything between passes: edit the specification, the labels, the policy and the
secrets, let BuildRuns start, finish and disappear, create objects of any name, and let time pass. It
leaves to the operator the ImageBuild's status, the record of its build inputs and the control of
BuildRuns (predicate `Protocol.EnvStep`).

## What holds, and what does not

At levels 1 and 2 no push is lost, every push has exactly one fate, counters and names agree, triggers
keep their distance, redeliveries are absorbed, and nobody else's objects are touched. At level 1
passes converge, Ready is truthful, a pending push is consumed after at most two waits, and, while
build inputs are not edited, at most one run is active; every edit of them is built, and nothing without one.

Some promises have limits, and the limits are theorems too:

- A pass that stops between creating a run and counting it leaves the ImageBuild stranded
  (`Limits.StopAfterCreateStrands`, `DriftLimits.StopAfterCreateStrandsDrift`): while that run exists,
  no pass, complete or stopped, counts, triggers or creates a run of its family again
  (`Limits.StrandedForGood`). A pending push waits: it is consumed exactly if the next name is free
  (`Limits.ConsumedExactlyIfFree`). A drift does not even wait: it is recorded as built, without a
  build (`Limits.StrandedDriftIsSwallowed`).
- A pass after an edit may first have to write the label, the Build and its reference; stops are counted
  from there. A specification is built twice exactly if a pass stops after counting its run and before recording
  its inputs, or after that and before reporting on the run if no run had been reported on before
  (`DriftLimits.BuiltTwiceExactly`; on a concrete cluster, `DriftLimits.ExampleBuildsTwice`).
- If another run had been reported on before, that last stop hides the new run for good: passes go on
  reporting on the old one, and its image appears as the output of the new specification, with no
  rebuild on commit involved (`DriftLimits.StopBeforeReportHidesRun`, `DriftLimits.ExampleHidesRun`).
  It is the one stop after which the annotation does not hold the inputs of the run last reported on
  (`DriftLimits.RecordSurvivesExactly`).
- The spec-change flow does not look for an active run. With a setup that stands and no active run
  but the last to begin with, two are active after a pass exactly if that flow is reached and finds a
  drift and a free name while the last run is active (`DriftLimits.TwoActiveExactly`,
  `DriftLimits.ExampleTwoActive`).
- On-commit rebuilds keep the reported image faithful as long as no pass that triggers starts drifted
  (`LatestImage.LatestImageIsFaithful`); one that does breaks the record, exactly then
  (`LatestImage.TriggerKeepsRecordExactly`), and a revert makes it show: the image name is taken from
  the present specification, the digest from the run (`LatestImage.RevertMisreports`; on a concrete
  cluster, `LatestImage.ExampleMisreports`).
- The controller accepts an empty webhook secret, with which the webhook answers every push with an
  internal error (`Refinement.SecretsAgree`).
- With interleaved reads and patches a push can be lost, exactly if it is recorded between the
  reconciler's read and its consuming patch and is for another commit than the push being consumed
  (`Interleaving.LossWindowIsExact`, `Interleaving.PushInWindowIsLost`), and so for any number of pushes
  (`Interleaving.ManyInWindow`). A push recorded after a
  consuming patch, by a webhook that had read the status before it, keeps its commit but can lose the
  members it shares with the consumed push, such as the branch (`Interleaving.TearingIsExact`).

## Where the documentation says otherwise

- `docs/git-webhook.md` promises a rebuild on each push to the configured branch. The code builds a
  push only if it is not superseded within the time windows and is not for the commit last triggered;
  the model follows the code.
- The ImageBuildPolicy in `README.md` is called `default`; the controller reads only the one called
  `image-build-policy` (`internal/controller/imagebuild/controller.go`). The model has that one policy.
- `api/v1alpha1/imagebuild_types.go` says that BuildRunCounter is incremented each time a BuildRun is
  created; on-commit runs have a counter of their own, and a pass that stops may not have counted yet.

## Model

| member | source | states |
|---|---|---|
| Names.RunNameInjective | internal/controller/imagebuild/buildrun.go:171-173 | equal BuildRun names, in either family and for any counters, come from the same ImageBuild, family and counter, so controllers of different ImageBuilds never compete for a name |
| Names.NextCounterPositive | internal/controller/imagebuild/buildrun.go:175-180 | the next counter is positive for every 64-bit counter but the largest |
| Json.PrintedTextParses | internal/controller/imagebuild/buildrun.go:133-136 | JSON text as the encoder writes it, with its escapes, parses back to the same value, for every value |
| LastSpec.MarshalRoundTrip | internal/controller/imagebuild/buildrun.go:122-140 | recorded build inputs, with omitted empty fields and optional secrets, decode to exactly the same inputs |
| Convergence.DriftIsExact | internal/controller/imagebuild/buildrun.go:97-118 | with inputs on record and a run reported on, drift is detected exactly when the specification's inputs differ |
| Convergence.OnlyInputsDrift | internal/controller/imagebuild/buildrun.go:115-117 | any time after recording, drift means a different source, build file or output; edits of rebuild mode, webhook secret or retention are none |
| MergePatch.MergeDiff | internal/controller/imagebuild/status.go:29-41 | a status patch computed from a fresh read has exactly the intended effect, for every pair of statuses |
| Api.ApiServer.PatchStatus | internal/controller/imagebuild/status.go:41-43 | the difference is merged into the stored status, whatever it is by then; nothing else changes |
| Api.ApiServer.PatchLabel | internal/controller/imagebuild/oncommit.go:65-70 | the label is set on the stored ImageBuild; nothing else changes |
| Api.ApiServer.Update | internal/controller/imagebuild/controller.go:229-231 | all but the status is replaced |
| Controller.Reconciler.PatchStatus | internal/controller/imagebuild/status.go:41-43 | one write of the pass: the stored status and the working copy both become the merge; without writes left nothing changes |
| Controller.Reconciler.SetNotReady | internal/controller/imagebuild/status.go:17-21 | the failure is reported in the Ready condition, or the pass was cut off there |
| Controller.Reconciler.PatchReadyCondition | internal/controller/imagebuild/status.go:23-46 | carries out the planned write of Ready and the observed generation, or is cut off |
| Controller.Reconciler.PatchBuildRef | internal/controller/imagebuild/status.go:48-63 | writes the reference unless it and the observed generation are current |
| Controller.Reconciler.PatchBuildSucceededCondition | internal/controller/imagebuild/status.go:65-89 | writes the last run's name and the verdict on it together |
| Controller.Reconciler.PatchLatestImage | internal/controller/imagebuild/status.go:91-109 | writes the image unless it is empty |
| Controller.Reconciler.NewBuild | internal/controller/imagebuild/build.go:63-109 | filling the optional parts one by one yields the Build that specification, policy and strategy call for |
| Controller.Reconciler.EnsureBuild | internal/controller/imagebuild/build.go:18-61 | creates or corrects the Build, refuses one controlled by another, and does nothing when it is right already |
| Controller.Reconciler.GetOrCreateBuildRun | internal/controller/imagebuild/buildrun.go:45-69 | returns the ImageBuild's own run of that name, fails on another's, creates a missing one |
| Controller.Reconciler.EnsureBuildRun | internal/controller/imagebuild/buildrun.go:71-93 | the run of the next counter; only a run created now is counted |
| Controller.Reconciler.EnsureOnCommitLabel | internal/controller/imagebuild/oncommit.go:52-73 | patches the label to what the rebuild mode calls for, unless it is that |
| Controller.Reconciler.PatchOnCommitTriggered | internal/controller/imagebuild/oncommit.go:159-177 | counter, last trigger and the cleared pending push in one patch |
| Controller.Reconciler.EnsureOnCommitBuildRun | internal/controller/imagebuild/oncommit.go:134-157 | the run of the next trigger counter; the trigger is marked only with a run created now |
| Controller.Reconciler.ReconcileOnCommitBuildRun | internal/controller/imagebuild/oncommit.go:22-50 | waits, drops a duplicate, yields to the active run, or triggers, in that order |
| Controller.Reconciler.ValidateWebhookSecret | internal/controller/imagebuild/controller.go:271-300 | a missing secret or key is reported and fails the pass |
| Controller.Reconciler.ReconcileBuild | internal/controller/imagebuild/controller.go:170-213 | Build and reference in place, or the reason for the failure reported |
| Controller.Reconciler.ReconcileDefaultBuildRun | internal/controller/imagebuild/controller.go:217-238 | on drift a run, then its count, then the record of its inputs; else the last run |
| Controller.Reconciler.FallBack | internal/controller/imagebuild/controller.go:254-269 | the spec-change flow with its failures reported by reason |
| Controller.Reconciler.ReconcileBuildRun | internal/controller/imagebuild/controller.go:243-269 | on-commit flow first, spec-change flow only if that proceeds |
| Controller.Reconciler.ReportConditions | internal/controller/imagebuild/controller.go:135-152 | the verdict, then Ready unless it is current |
| Controller.Reconciler.ReconcileStatus | internal/controller/imagebuild/controller.go:130-166 | verdict, Ready, image, in that order; polls exactly while the verdict is open |
| Controller.Reconciler.ReconcileRuns | internal/controller/imagebuild/controller.go:101-127 | the rest of a pass once the Build is in place, and the delay it asks for |
| Controller.Reconciler.Reconcile | internal/controller/imagebuild/controller.go:73-128 | a pass carries out exactly its plan, or, when the process stops, exactly the first writes of it |
| Guards.EnsureOnCommitObeys | internal/controller/imagebuild/oncommit.go:134-157 | an on-commit run is created only under the next name, for a due push that is no duplicate, with no run active; the trigger is marked only for a run the ImageBuild controls |
| Guards.OnCommitObeys | internal/controller/imagebuild/oncommit.go:22-50 | pending is cleared only for a due duplicate or a trigger; the run returned is stored, and is the last one or owned |
| Guards.DefaultObeys | internal/controller/imagebuild/controller.go:217-238 | spec-change runs are created, counted and recorded only on drift |
| Guards.BuildObeys | internal/controller/imagebuild/controller.go:170-213 | a Build controlled by another is never written |
| Guards.ReconcileObeys | internal/controller/imagebuild/controller.go:73-128 | every write of every pass, from any state, obeys its rule in the very world it is made in |
| Protocol.StepKeepsPushes | internal/controller/imagebuild/oncommit.go:34-42 | the record of pushes survives every write, delivery and environment step |
| Protocol.StepKeepsSpacing | internal/controller/imagebuild/oncommit.go:84-107 | so do the distances between triggers and after pushes |
| Protocol.StepKeepsCounters | internal/controller/imagebuild/oncommit.go:139-154 | so does the agreement of counters and names |
| Protocol.StepKeepsOwnRun | internal/controller/imagebuild/status.go:65-89 | so does the ownership of the run last reported on |
| Protocol.RunKeepsInv | internal/controller/imagebuild/controller.go:73-128 | the whole invariant holds along every run of single writes, deliveries and environment steps |
| Safety.PassIsShort | internal/controller/imagebuild/controller.go:73-128 | no pass makes more than twelve writes |
| Safety.StoppedPassIsLegal | internal/controller/imagebuild/controller.go:73-128 | however early a pass stops, what it has done is a legal run of the protocol |
| Safety.NoPushIsLost | internal/controller/imagebuild/oncommit.go:159-177 | over every run with stops: what is pending is the last push received, and with nothing pending the last trigger was for its commit |
| Safety.EveryPushHasOneFate | internal/controller/imagebuild/oncommit.go:34-42 | every push is exactly one of pending, superseded, consumed by one trigger for its commit, or dropped as a duplicate of an earlier trigger |
| Safety.CountersMatchNames | internal/controller/imagebuild/buildrun.go:71-93 | over every run with stops, the indices created in a family are 1 up to its counter or one more, and owned names are among them |
| Safety.TriggersKeepTheirDistance | internal/controller/imagebuild/oncommit.go:84-107 | adjacent triggers are for different commits and 30 s apart on record, more than 29 s in truth; no on-commit run within 10 s on record, 9 s in truth, of the latest push |
| Safety.GenerationsAdvance | internal/controller/imagebuild/status.go:23-109 | conditions are never ahead of the observed generation, nor it of the specification's, and it never goes back |
| Safety.ReportsCarryVerdicts | internal/controller/imagebuild/status.go:73-84 | whichever write sets the last run sets with it the verdict derived from that very run, for the present generation |
| Safety.RedeliveriesBuildOnce | internal/controller/imagebuild/oncommit.go:102-107 | any number of redeliveries of one commit, between passes complete or stopped, is triggered at most once, and not at all if it was the last commit triggered |
| Safety.StoppedPassRespectsOwners | internal/controller/imagebuild/buildrun.go:45-69 | a pass, however early it stops, modifies and deletes no BuildRun, and adopts and changes nothing controlled by another |
| Safety.LastRunIsOwn | internal/controller/imagebuild/status.go:73-73 | along every run the run last reported on is the ImageBuild's own, unless somebody else has made one of that name |
| Refinement.PassIsAction | internal/controller/imagebuild/controller.go:73-128 | what the stepwise controller does is an action of these runs |
| Refinement.RequestIsAction | internal/webhook/git/handler.go:104-137 | what a webhook request does is, for each ImageBuild, a delivery or a step of the environment |
| Refinement.OtherPassIsEnvironment | internal/controller/imagebuild/controller.go:73-128 | a pass over another ImageBuild, however early it stops, is a step of the environment |
| Refinement.SecretsAgree | internal/webhook/git/handler.go:186-204 | once an ImageBuild is set up, the webhook finds no secret for it exactly if none is configured or its value is empty |
| Convergence.ReadyIsTruthful | internal/controller/imagebuild/controller.go:141-152 | a complete pass that leaves Ready true leaves the Build owned and as specification, policy and strategy call for, referred to, the secret key present and the label right |
| Convergence.VerdictMeans | internal/controller/imagebuild/status.go:113-128 | the verdict on a run is open exactly while the on-commit flow would wait for it, true exactly when it succeeded, false exactly when the reason says it failed |
| Convergence.StatusAgain | internal/controller/imagebuild/controller.go:130-166 | reporting on the same run again changes nothing |
| Convergence.PassRests | internal/controller/imagebuild/controller.go:73-128 | unless it creates an on-commit run, one pass from any state comes to rest |
| Convergence.OneRunPerPass | internal/controller/imagebuild/controller.go:243-269 | a pass creates at most one run: the next on-commit one if it triggers, else the next spec-change one |
| Convergence.PassesConverge | internal/controller/imagebuild/controller.go:73-128 | from any state the third consecutive pass changes nothing, the second only if the first would trigger, and on the way at most one on-commit and then one spec-change run are created |
| Convergence.PassesStayAtRest | internal/controller/imagebuild/controller.go:73-128 | however many passes follow, over an unchanging cluster everything stays as the first two passes left it |
| Answers.PassAnswers | internal/controller/imagebuild/controller.go:73-128 | what every complete pass returns, from any state: 30 s if policy, strategy, webhook secret or its key is missing, nothing if the Build or the name of the wanted run is somebody else's, each blamed in Ready by its reason; the remaining wait; else ready, and 10 s exactly while the reported verdict is open |
| Answers.FailingPassAnswers | internal/controller/imagebuild/controller.go:88-101 | a pass whose setup fails blames the first thing missing and creates and changes no run and no Build |
| Answers.BuildStageAnswers | internal/controller/imagebuild/controller.go:170-213 | the Build stage succeeds exactly if policy and strategy are there and the Build is nobody else's, and fails with the reason that applies |
| Answers.EnsureBuildAnswers | internal/controller/imagebuild/build.go:18-61 | refuses a missing strategy first, then a Build controlled by an owner of another kind or name, and nothing else |
| Answers.GoneIsLeft | internal/controller/imagebuild/controller.go:77-83 | for an ImageBuild that is gone a pass does nothing and does not ask to be repeated |
| Answers.WantedMeans | internal/controller/imagebuild/oncommit.go:22-50 | what a pass wants, read off the present push, its windows of 10 s and 30 s, the last trigger, the last run and the recorded inputs, is what its flows decide |
| Outcomes.PassDoes | internal/controller/imagebuild/controller.go:73-128 | what every complete pass does: which run it creates if any, which one it reports on, what is counted and recorded, and whether the push is consumed, dropped or kept; with a failing setup it touches none of these |
| Outcomes.FallBackDoes | internal/controller/imagebuild/controller.go:217-238 | over a drift the run of the next name is found or created, counted only if created, and the inputs recorded; over another's run nothing |
| Outcomes.TriggerDoes | internal/controller/imagebuild/oncommit.go:134-177 | the push is consumed, with run name, commit and time of the trigger on record, exactly if the next name is free; over the own or another's run of that name it is kept |
| Builds.ReadyMeans | internal/controller/imagebuild/build.go:63-109 | a complete pass that leaves Ready true, from any state, leaves a Build that is the ImageBuild's own and whose strategy, URL, revision, context directory, secrets, image and retention are, field by field, those of the present specification and policy, and a status, label and secret in step with it |
| Builds.ReadyIsCurrent | internal/controller/imagebuild/controller.go:141-152 | Ready true is for the present generation, unless the pass waited and found it so |
| Builds.ForeignBuildIsLeft | internal/controller/imagebuild/build.go:40-43 | a Build whose controller is of another kind or name survives every pass, however early it stops, unchanged; if it has the ImageBuild's Build name no run is created and a complete pass ends not ready |
| Builds.FailingPassKeepsRuns | internal/controller/imagebuild/controller.go:85-101 | a pass whose setup fails changes no run, however early it stops |
| Builds.CreatedRunsAreWellMade | internal/controller/imagebuild/buildrun.go:154-169 | whatever run a pass creates, however early it stops, names the ImageBuild's Build, which is there, is the one the status refers to and says what the present specification and policy call for; it has the next name of its family and that family's labels |
| Builds.OutcomeIsReported | internal/controller/imagebuild/controller.go:130-166 | after a pass that ends ready without waiting, the verdict is what has become of the run last reported on, and a successful one is reported as its image: by digest, or else the image itself exactly if that carries a tag or digest |
| Deliveries.ChangeIsDue | internal/webhook/git/handler.go:75-96 | a request changes an ImageBuild only to record the push, only if its mode is OnCommit, its source Git, the ref its branch and a clone URL its repository, and only if the value of its own secret authenticates the request |
| Deliveries.EveryGenuineIsRecorded | internal/webhook/git/handler.go:104-137 | unless the answer is 500, every such ImageBuild that carries the label gets the push |
| Deliveries.ErrorMeans | internal/webhook/git/handler.go:107-113 | the answer is 500 exactly if a selected ImageBuild has no secret value |
| Deliveries.ForgedPushIsRefused | internal/webhook/git/handler.go:115-117 | a push that no stored secret authenticates changes nothing, and is accepted exactly if it concerns no ImageBuild |
| Deliveries.OtherRepositoryIsLeft | internal/webhook/git/handler.go:85-102 | a push to a repository no ImageBuild is built from changes nothing and is accepted |
| Deliveries.OneBranchOnly | internal/webhook/git/handler.go:76-83 | while its specification is the same, all pushes ever recorded with an ImageBuild are to one branch of one repository |
| Deliveries.PushesReachTheReady | internal/webhook/git/handler.go:41-138 | once passes have left every ImageBuild ready, a push is recorded with exactly those whose specification asks for it and that it is genuine for, unless one of those asked has no secret value |
| Webhook.RequestMeans | internal/webhook/git/handler.go:41-138 | what is recorded and answered by lists of matches is the field-by-field account that the request handler is proved to meet |
| CompletePasses.CountersAreExact | internal/controller/imagebuild/buildrun.go:82-90 | when passes complete, the indices created are exactly 1 up to the counters, and there were no other creations |
| CompletePasses.OneActiveRun | internal/controller/imagebuild/oncommit.go:109-132 | while build inputs are not edited, every active run of the ImageBuild is the one last reported on, for any pushes, completions and deletions |
| Edits.EditsBoundBuilds | internal/controller/imagebuild/controller.go:217-238 | over runs of complete passes the spec-change runs ever created are at most one more than the edits of the build inputs |
| Edits.EveryEditIsBuilt | internal/controller/imagebuild/controller.go:217-238 | after such a run, a pass that wants a spec-change run and ends ready has created it from the Build, which by then says what the present specification calls for, reported on it and recorded exactly those inputs; and it ends ready if nothing is missing and neither Build nor name is taken |
| LatestImage.LatestImageIsFaithful | internal/controller/imagebuild/buildrun.go:144-152 | over runs with pushes, on-commit rebuilds, edits and reverts in which no pass that triggers starts drifted: the annotation holds the inputs the last run was created for, and what is reported is its own output by its own digest |
| LatestImage.TriggerKeepsRecordExactly | internal/controller/imagebuild/oncommit.go:44-49 | a pass that triggers keeps that record true exactly if the present inputs were on record, that is, once a run has been reported on, exactly if it did not start drifted |
| LatestImage.ReportFollowsSpec | internal/controller/imagebuild/controller.go:154-158 | whatever a pass newly reports is about a successful run, under the output of the present specification; for a run whose inputs are known that is its own output exactly if the specification names it then |
| LatestImage.RevertMisreports | internal/controller/imagebuild/controller.go:154-158 | an on-commit run followed by a revert is reported under the reverted output |
| LatestImage.ExampleMisreports | internal/controller/imagebuild/controller.go:154-158 | a concrete cluster in which that happens |
| Progress.PassOutcome | internal/controller/imagebuild/oncommit.go:22-50 | a pass over a pending push waits and says how long, or polls the active run, or consumes the push |
| Progress.WaitIsWorthIt | internal/controller/imagebuild/oncommit.go:84-100 | after a wait that is honoured one window fewer is open |
| Progress.PendingPassesAreFew | internal/controller/imagebuild/controller.go:115-124 | while a push stays pending, at most two passes wait, all others poll one and the same run, and every pass asks to be repeated |
| Progress.PushIsConsumed | internal/controller/imagebuild/oncommit.go:134-157 | with no further push and the active run found active at most n times, the push is consumed within n + 3 passes |
| Limits.StopAfterCreateStrands | internal/controller/imagebuild/oncommit.go:143-154 | stopping between creation and trigger, after whatever setup writes the pass had to make, leaves the push pending and its run name taken |
| Limits.StrandedForGood | internal/controller/imagebuild/buildrun.go:82-84 | from then on, in either family, over any run of complete and stopped passes, pushes and edits while that run exists: the counter stays, nothing is triggered, and no run of the family is created |
| Limits.StrandedDriftIsSwallowed | internal/controller/imagebuild/controller.go:222-234 | a complete pass that ends ready over a drift with an uncounted run creates nothing, reports on that run and puts the present inputs on record, so that no drift is left |
| Limits.ConsumedExactlyIfFree | internal/controller/imagebuild/oncommit.go:143-150 | a due push is consumed exactly if the next on-commit name is free |
| DriftLimits.StopAfterCreateStrandsDrift | internal/controller/imagebuild/buildrun.go:78-90 | stopping between creation and count, after whatever setup writes, leaves the drift and the run name taken |
| DriftLimits.BuiltTwiceExactly | internal/controller/imagebuild/controller.go:222-234 | with m setup writes to make, for every number n of writes before the stop, the runs after the next complete pass: a second one for the same specification, unless somebody holds its name, exactly if n is m + 2, or n is m + 3 and no run had been reported on |
| DriftLimits.StopBeforeRecordRepeats | internal/controller/imagebuild/controller.go:222-231 | at n = m + 2, the second run is created by the next pass, under the following name |
| DriftLimits.StopBeforeReportHidesRun | internal/controller/imagebuild/status.go:73-84 | at n = m + 3 with a run reported on before, the new run is never reported on, nothing changes after the next pass, and the old run's image is reported as the new output |
| DriftLimits.RecordSurvivesExactly | internal/controller/imagebuild/controller.go:225-231 | the annotation holds the inputs of the run last reported on after every stop but that one |
| DriftLimits.TwoActiveExactly | internal/controller/imagebuild/controller.go:217-238 | with a setup that stands, done or not, and at most the last run active before, two runs are active after a pass exactly if the spec-change flow is reached, finds a drift and a free name, and the last run is active |
| DriftLimits.EditStartsSecondRun | internal/controller/imagebuild/controller.go:217-238 | the pass after an edit starts a second run beside an active one |
| DriftLimits.ExampleBuildsTwice | internal/controller/imagebuild/controller.go:222-231 | a concrete cluster, right after an edit, in which a stop makes two runs for one specification |
| DriftLimits.ExampleHidesRun | internal/controller/imagebuild/status.go:73-84 | the same cluster, in which a later stop makes the old image appear as the new output for good |
| DriftLimits.ExampleTwoActive | internal/controller/imagebuild/controller.go:217-238 | the same cluster with the first run still active, in which a pass starts a second |
| Interleaving.PatchesCommute | internal/webhook/git/handler.go:167-178 | for any stale reads of either writer and any stored status, a delivery commutes with the Ready, BuildRef, BuildSucceeded, LatestImage and counter patches, and neither loses anything |
| Interleaving.ConsumingCommutesButPending | internal/controller/imagebuild/oncommit.go:163-172 | against the patches that consume a push, every field but the pending push ends the same in either order |
| Interleaving.InterleavingEffect | internal/controller/imagebuild/oncommit.go:159-177 | what is received, pending and triggered after each of the six interleavings of the two writers |
| Interleaving.LossWindowIsExact | internal/controller/imagebuild/oncommit.go:163-172 | the push is kept unless it is for another commit and recorded between the reconciler's read and patch, and then it is lost |
| Interleaving.PushInWindowIsLost | internal/controller/imagebuild/oncommit.go:163-172 | in that window it is received, and neither pending nor triggered |
| Interleaving.ManyInWindow | internal/controller/imagebuild/oncommit.go:163-172 | of any number of pushes recorded in that window, whatever their handlers had read, exactly those for the commit being consumed are kept, the last one included |
| Interleaving.TearingIsExact | internal/webhook/git/handler.go:167-178 | when a pending push keeps the whole of its record |
| Webhook.Handler.ListLabelled | internal/webhook/git/handler.go:62-67 | the labelled ImageBuilds in the server's order |
| Webhook.Handler.FindMatches | internal/webhook/git/handler.go:69-96 | exactly the listed ImageBuilds in mode OnCommit with a Git source, the branch pushed to and a repository among those pushed to, in order |
| Webhook.Handler.PatchOnCommitStatus | internal/webhook/git/handler.go:158-184 | the push becomes the last received and the pending one, all else is kept |
| Webhook.Handler.DeliverTo | internal/webhook/git/handler.go:104-137 | the push is recorded with exactly the authenticated matches before the first without a secret, and the answer says which case it was |
| Webhook.Handler.ServeHTTP | internal/webhook/git/handler.go:41-138 | the same for a whole request over the stored ImageBuilds, both by lists of matches and field by field (`Webhook.IsHandled`); unreadable requests change nothing |
| Webhook.DeliveryIsExact | internal/webhook/git/handler.go:98-137 | 202 exactly if every match has its secret and some is authenticated or none matches, and then exactly the authenticated matches are updated; 401 exactly if none is; 500 exactly if a match has no secret, and then exactly the authenticated ones before it are updated |
| LabelIndex.LabelIndexIsExact | internal/webhook/git/handler.go:62-96 | selection by label never finds more than the specifications would, and finds the same exactly if no matching ImageBuild lacks the label |
| LabelIndex.InPlaceLabelsSelect | internal/webhook/git/handler.go:62-96 | with every label in place the two selections are equal |
| LabelIndex.LabelIsInPlace | internal/controller/imagebuild/oncommit.go:52-73 | from a pass that made its first write until the next edit of rebuild mode or on-commit label, other labels changing at will, the label is in place, whatever stops or fails |
| LabelIndex.ReconciledLabelsSelect | internal/webhook/git/handler.go:62-96 | when every listed ImageBuild has had a pass since its rebuild mode or on-commit label was last edited, the webhook finds exactly the ImageBuilds whose specifications ask for the push |

## Left out

- The HTTP side of the webhook: method and provider detection, bodies, payload parsing and signature or token checks. What they yield is a parameter (`Reading`, `Oracle.authenticates`).
- Repository identity (`vcsurl` parsing and URL normalisation) and the image reference parser: parameters, for which the theorems hold whatever they compute.
- Webhook.Handler.ServeHTTP: an ImageBuild deleted between the listing and its patch, which the handler answers with 500, is not modelled; within one request nothing else happens.
- Condition messages and transition times, events and logs.
- Resource versions. The one write that carries one, the annotation update, can fail with a conflict; for the pass that is a stop at that write. The webhook's retry on conflict is never taken, since patches carry no version.
- Errors of single reads, and errors of a write after which a later write of the same pass succeeds. Passes stop at a write for good.
- Stale informer caches: every read is fresh at levels 1 and 2, and there is one reconciler per ImageBuild.
- Deletion and re-creation of the ImageBuild itself, and garbage collection.
- Time within one pass: a pass reads the clock at its start. The machine in Protocol lets time pass between any two writes.
- Edits by users of the ImageBuild's status or of the annotation with the recorded inputs; all other annotations may change at will.
- `SetControllerReference` compares group, kind and name of an owner; the model compares kind and name.
- The limit of Go's JSON decoder on nesting depth, far beyond the annotation's three levels, and strings that are not valid UTF-8, which the encoder would change.
- DriftLimits.BuiltTwiceExactly: like its neighbours on stopped spec-change passes, it is about a pass that gets to create a spec-change run, with no on-commit rebuild called for; a pass that drops a duplicate push first makes one write more.
- Progress.PushIsConsumed: presumes that the secret, the policy, the strategy and the Build stay in order and that nobody else takes the next on-commit name, because otherwise passes fail on purpose until somebody repairs that.
- Shipwright's own controller, leader election, charts, generated code and build strategies.
