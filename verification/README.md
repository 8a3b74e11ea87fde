# A verified model of the Adomi platform's control plane

Adomi is a Kubernetes operator, a git-backed API and an Odoo portal. This project models the parts of it that behave as
state machines or as algebras, and proves what they promise over every input, every run and every interleaving the model
admits. `dafny verify dfyconfig.toml` checks all of it.

A reconciler pass, an API request or a portal action that changes objects step by step is a method of a class with the
fields the source writes. Its `ensures` equates the new state with a step function (`View() == Step(old(View()))`), and
the results below are lemmas about these step functions and about their runs. Code made of expressions is functions.

## Modules

- `EngineModel`, `EngineReconciler`: the application and snapshot reconcilers over one cluster of applications,
  snapshots, workflows, Argo CD Applications, ExternalSecrets and namespaces, with a history of submissions, finished
  workflows and applies. Gate safety: `EngineSafety`, and its exact conditions in `EngineRestores` (dumps), `EngineBuilds`,
  `EngineImages` and `EngineOwnRestores`. `EngineStored` and `EngineOutcomes` tell one pass from the objects alone: what it
  submits and stores, and the cause of each outcome. Convergence: `EngineConvergence` (pass by pass), `EngineRuns` (over runs), `EngineNeighbours` and
  `EngineHeld`. `EngineExamples` is one ordinary world in which the shared names collide.
- `DatabaseModel`, `DatabaseReconciler`: the database reconciler with OpenBao, owner Secrets, ConfigMaps and
  provisioning Jobs, and the credentials of SSO applications. `Credentials`, `Provisioning`, `ProvisioningEdits`,
  `ProvisioningTruth` and `ProvisioningShared` hold the theorems; `ProvisioningScript` has the base SQL as statements over
  a server's databases and roles, and `ProvisioningText` reads the stored text, apart from its printer, and runs what it reads.
  `ProvisioningOutcomes` has the cause of each outcome of a pass.
- `ScopedSecrets`: the secret store, the API's paths, the controller's paths, and the delivery of the merged map.
- `GitVariables`: client services over manifests in git. `Rollup`: the merge of variables for the workload and the
  portal's roll-up, which `Sorting` orders. `ReverseSync`: the mirroring of a spec's variables into portal records.
  `ImportSweep`: the discovery of records from the cluster.
- `AccessGate`: groups, members and bindings. `Requeue`: the fan-out of a parent's generation, and `RequeueHeirs`: whom it
  has to reach, told from what an application resolves to.
- `Dockerfile`, `PipelineManifest`: the two printers, the line reader and the commit and import actions. `DockerfileMeaning`
  and `DockerfileMisreads` hold the theorems about its lines; `DockerfileWords` and `DockerfileImage` take the instructions apart
  into words and carry them out, up to the image that is built.
- `DeepMerge`: nested dictionaries, as values and as a heap of mutable dictionaries. `Names`: slugs, labels and tags.
  `Text`, `Wrappers`: strings and options.

An `Oracle` holds what a pass meets and its cluster does not determine: which backend calls succeed, what a generator
returns, and what a workflow or Job reports during the pass. In `AccessGate` it is the number of calls that are still
answered. Time is an integer parameter.

## Where the code does not do what is wanted of it

Each is stated as the exact condition under which the property holds, over all inputs or all runs, with a failing input
or run where the condition is not plain.

- A restore reads a key that a successful dump wrote exactly when no two snapshots share a workflow name. The name joins
  namespace and name by a dash, so snapshot `b-c` in `a` and snapshot `c` in `a-b` collide, and the second takes the
  first one's dump for its own (`EngineRestores.RestoresTracedIff`, `EngineRestores.SnapshotNamesCollide`).
- An application is deployed with the build it asks for exactly when the name of a build workflow tells the build. The
  name holds the sanitized ref only, so the branches `feature/x` and `feature-x` share a build, and so do two repositories
  under one ref (`EngineBuilds.BuiltAsAskedIff`, `EngineBuilds.BranchesShareABuild`, `EngineBuilds.EditedSourceBreaks`,
  `EngineExamples.BranchesCollide`).
- An application is deployed with the image that its own build pushed exactly when, besides, the image reference tells the
  build. The reference joins client, application and tag and holds no environment, so application `prod-web` of client `acme`
  and application `web` of client `acme-prod` push to one image (`EngineStored.OwnImageIff`, `EngineExamples.ImagesCollide`).
- An application is deployed after its own restore of its own snapshot exactly when the name of a restore workflow tells
  both. Application `x` restoring `y-z` and application `x-y` restoring `z` collide (`EngineOwnRestores.RestoredItselfIff`,
  `EngineExamples.RestoresCollide`).
- Over all runs, no pass over one application disturbs another one, or undoes it when it is finished, exactly when the two
  have different Argo CD Applications, and different ExternalSecrets or one with the same paths. `eu-web` in `acme-prod` and
  `web` in `acme-prod-eu` share the first (`EngineNeighbours.NeverDisturbsIff`, `EngineExamples.NeighboursCollide`).
- With everything else in place, an application that restores into a fresh database submits its restore exactly when the
  credential Secret is there, and its own chart is what delivers that Secret: as long as nobody else does, no run applies
  the chart (`EngineHeld.RestoreProceedsIff`, `EngineHeld.FreshRestoreWaits`).
- The create-only owner Secrets agree with OpenBao exactly when no owner Secret is used with two paths; databases of one
  name on one server share the Secret (`Credentials.OwnersAgreeIff`, `Credentials.SameNameDatabasesDisagree`).
- An unchanged script never has a second Job, and an edited one reaches its Job within two passes, exactly when no two
  databases with different SQL share server namespace and Job name. Databases of one name do, and so do long names that
  differ behind the cut at 63 characters; then each deletes the Job of the other, with no edit and no deletion
  (`ProvisioningShared.OneJobIff`, `ProvisioningShared.EditReachesIff`, `ProvisioningShared.SharedJobNames`,
  `ProvisioningShared.NamesakesLoseTheirJobs`).
- The SQL that databases are Ready for is the SQL that their Jobs ran, over all runs, exactly when there is no database
  whose passes may stop between writing the ConfigMap and looking at the Job (`ProvisioningTruth.RanIffWhole`).
- The API writes a secret where the controller reads it exactly when the client's slug is its name
  (`ScopedSecrets.SidesAgreeIffSlugIsName`).
- Two application scopes of one client share their variables exactly when the applications have one name, because the
  manifest path does not hold the environment (`GitVariables.ScopesShareIff`).
- The workload and the portal pick the same winner exactly when no explicit `env` entry has the name and no secret of the
  name is on top in the portal (`Rollup.RollupsAgreeIff`).
- A sync makes the portal equal to the spec exactly when no name had two records; a uniqueness constraint over nullable
  scope columns does not exclude that. A deleted variable comes back from a stale spec
  (`ReverseSync.SyncConvergesIff`, `ReverseSync.AbsentNameReturnsIff`).
- Nobody is ever locked out, in all runs in which revokes complete, exactly when applications with one access group have
  the same registrations. The group is named after the release, which `eu-web` of client `acme` in `prod` and `web` of client
  `acme-prod` in `eu` share: a grant on one and a revoke of the last member through the other leave a bound, empty group
  (`AccessGate.NeverLockedOutIff`, `AccessGate.NamesakesLockOut`).
- One revoke locks everybody out exactly when it takes the last member and leaves a binding of the group: because at least one
  call is answered and no more than the application's registrations have bindings, or because the group is bound beyond these
  (`AccessGate.RevokeLocksIff`).
- The first reconcile of a parent at its generation misses an application exactly when the last stamp on it was put there
  by an earlier life of the parent at that generation: a parent that is deleted and created anew starts at generation 1
  again. Over all runs no update is lost exactly when no parent is removed (`Requeue.MissedIff`, `Requeue.NeverMissesIff`).
- An application resource outside a client namespace can write its status to another client's record, inside never. An
  environment resource writes to the client that its `clientRef` names, wherever it is (`ImportSweep.OwnStatusIff`,
  `ImportSweep.OwnEnvStatusIff`).
- `deep_merge` is associative exactly when no leaf of the middle layer buries a dictionary that the last layer does not
  cover (`DeepMerge.AssociativeIff`).
- Sanitizing a tag twice is sanitizing it once exactly when the ref has at most 128 characters left before the cut, or the
  128th of them is neither `.` nor `-` (`Names.SanitizeIdempotentIff`).
- The Dockerfile says what the pipeline asks for exactly when the base image does not continue its line, no package starts
  with `#`, and the last `pip` package is not blank and ends neither in a space or backslash nor in a backslash before
  tabs (`DockerfileMisreads.SaysWhatWasAskedIff`).

## Model

| member | source | states |
|---|---|---|
| EngineSafety.GateSafety | src/adomi_platform_controller/handlers/application.py:198-273 | In every run of passes of both reconcilers, edits, deletions and workflow reports, no workflow finishes that was not submitted, and each Argo CD apply comes after a Succeeded workflow of the build's name and of the restore's name; as far as the run's own workflow names tell builds, restores and snapshots apart, after exactly the build that was asked for, after a restore of that snapshot's key that the application submitted, and every restore reads a dumped key |
| EngineBuilds.BuiltAsAskedIff | src/adomi_platform_controller/handlers/application.py:435-606 | Over all runs that ask for a set of builds, each apply follows a Succeeded build of the very repository, ref, recipe and image its pass asks for, if and only if build names tell the builds of the set apart |
| EngineBuilds.EditedSourceBreaks | src/adomi_platform_controller/handlers/application.py:540-606 | Editing a source to another repository or a ref with the same tag deploys the old build |
| EngineBuilds.BranchesShareABuild | src/adomi_platform_controller/handlers/application.py:555-606 | `feature/x` and `feature-x` of one application share their build, wherever it can be built |
| EngineExamples.BranchesCollide | src/adomi_platform_controller/handlers/application.py:555-606 | They do in an ordinary world |
| EngineStored.PassStores | src/adomi_platform_controller/handlers/application.py:157-299 | One pass from any cluster, whatever its calls meet, told from the objects: every build and restore that it submits is asked for what source, repository, snapshot, database and environment say; an apply is the last thing it logs, and leaves an Argo CD Application with the spec, chart, host, OIDC client and delivered Secret as they are resolved, an image that is empty without a source and with one is what exactly the build asked for pushes, and a status whose URL and built image are those; a pass without an apply leaves Argo CD as it was and the application not Ready |
| EngineStored.OwnImageIff | src/adomi_platform_controller/handlers/application.py:478-606 | Over all runs that ask for a set of builds, every pass that applies an application with a source stores, in its Argo CD Application, the image that the very build its pass asks for has pushed last, if and only if build names and image references both tell the builds of the set apart |
| EngineStored.PassOwnImage | src/adomi_platform_controller/handlers/application.py:221-284 | A pass stores the application's own image exactly when its apply is logged after that image was pushed last by the build it asks for |
| EngineImages.AppliedImageIff | src/adomi_platform_controller/handlers/application.py:478-606 | The same said of the history: each apply is logged while its build's image was last pushed by that build, if and only if build names and image references both tell the builds of the set apart |
| EngineImages.SharedImageBreaks | src/adomi_platform_controller/handlers/application.py:478-606 | After two different builds of one image, a further pass over the first application deploys the second one's build |
| EngineExamples.ImagesCollide | src/adomi_platform_controller/handlers/application.py:478-488 | Two customers' applications push to one image in an ordinary world |
| EngineOwnRestores.RestoredItselfIff | src/adomi_platform_controller/handlers/application.py:608-731 | Over all runs that ask for a set of restores, each apply of a restoring application follows a Succeeded restore of its snapshot that it submitted itself, if and only if restore names tell applications and snapshots of the set apart |
| EngineOwnRestores.RestoreNamesCollide | src/adomi_platform_controller/handlers/application.py:656-731 | Application `x` restoring `y-z` and application `x-y` restoring `z` break it, wherever they can be restored |
| EngineExamples.RestoresCollide | src/adomi_platform_controller/handlers/application.py:656-731 | They do in an ordinary world |
| EngineRestores.RestoresReadDumps | src/adomi_platform_controller/handlers/application.py:608-731 | When no two snapshots share a workflow name, every restore that any run submits reads a key that a Succeeded dump wrote before |
| EngineRestores.RestoresTracedIff | src/adomi_platform_controller/handlers/snapshot.py:26-110 | Exactly then: the dump and restore protocol is safe over all runs with a set of snapshots if and only if their workflow names are distinct |
| EngineRestores.SnapshotNamesCollide | src/adomi_platform_controller/handlers/snapshot.py:26-28 | Ordinary Kubernetes names break it |
| EngineRestores.RestoredOnce | src/adomi_platform_controller/handlers/application.py:608-640 | Once `restoredFrom` records the snapshot and `restoreFrom` keeps naming it, no run submits a restore for the application again, even when its workflow object vanishes |
| EngineConvergence.PassDescends | src/adomi_platform_controller/handlers/application.py:157-299 | With its references present a pass never undoes a stage, and when build, restore and SSO have answered it passes a further one: the measure of what is left falls |
| EngineConvergence.UndisturbedKeeps | src/adomi_platform_controller/argocd.py:88-103 | Whatever happens between passes that leaves the application's own objects, and what its passes read, as they were or further, keeps every stage passed |
| EngineRuns.DisturbedIff | src/adomi_platform_controller/handlers/application.py:796-825 | For edits, finalizers, workflow reports and vanishing workflows the exact condition, on the state before the step, under which it disturbs an application; for changed surroundings the condition is only that the application's passes read the same from them |
| EngineRuns.SnapshotPassIff | src/adomi_platform_controller/handlers/snapshot.py:30-110 | The exact condition for a snapshot pass |
| EngineRuns.OtherPassHarmless | src/adomi_platform_controller/handlers/application.py:157-299 | A pass over another application leaves it alone when the two share no Argo CD Application, and an ExternalSecret only with the same paths, and no workflow of theirs reports a failure meanwhile |
| EngineRuns.Converges | src/adomi_platform_controller/handlers/application.py:157-299 | In every run of the system whose other steps meet these conditions, four answered passes of the application, wherever they come, make it Ready with exactly the objects and status its spec asks for, and a further pass changes nothing |
| EngineNeighbours.NeighbourIff | src/adomi_platform_controller/handlers/application.py:225-297 | A deployment of one application leaves a finished other one undisturbed, and finished, if and only if they have two Argo CD Applications or want the same one, and two ExternalSecrets or read the same paths |
| EngineNeighbours.NeverDisturbsIff | src/adomi_platform_controller/handlers/application.py:157-299 | In no state that a run reaches, and with no specs that resolve to these places, does a pass over one application disturb another one, or undo a finished one, if and only if the two have different Argo CD Applications, and different ExternalSecrets or one with the same paths; workflows that report during the pass report success |
| EngineNeighbours.NamesakesFight | src/adomi_platform_controller/handlers/application.py:59-61 | Applications of namespaces `acme-prod` and `acme-prod-eu` can share the first |
| EngineExamples.NeighboursCollide | src/adomi_platform_controller/handlers/application.py:225-297 | A run in an ordinary world in which a finished application is undone by another customer's pass |
| EngineConvergence.SettledIsStable | src/adomi_platform_controller/handlers/application.py:157-299 | A pass over a Ready application leaves the cluster as it is |
| EngineOutcomes.OutcomeTells | src/adomi_platform_controller/handlers/application.py:157-299 | From any cluster, each Ready condition that a pass writes has its cause: Ready means Deployed, a Succeeded build and the recorded snapshot; waiting means an unfinished build, restore or SSO registration; the other reasons name the missing field, the missing reference, the refused call or the failed workflow |
| EngineOutcomes.SnapshotTells | src/adomi_platform_controller/handlers/snapshot.py:30-110 | The same for a snapshot pass, which submits only a dump of its own application's first database, and changes nothing else |
| EngineOutcomes.LayersDecide | src/adomi_platform_controller/resolve.py:259-338 | An application resolves to what its environment, client, organization, type and Domain say: the host of the spec first, else a label below the nearest base domain, the organization's image before the platform's |
| EngineOutcomes.ResolvesIff | src/adomi_platform_controller/handlers/application.py:383-433 | It resolves if and only if environment and type are named and every reference leads somewhere, and an unnamed one is told from a missing one |
| EngineOutcomes.TeardownIsExact | src/adomi_platform_controller/handlers/application.py:796-825 | A removal takes what the status names, as far as each deletion goes through, and nothing else |
| EngineOutcomes.SnapshotTeardownIsExact | src/adomi_platform_controller/handlers/snapshot.py:112-131 | A snapshot's removal takes its workflow, recorded or not, and nothing else |
| EngineOutcomes.PushedUnderItsPath | src/adomi_platform_controller/resolve.py:143-161 | With an internal endpoint an image is pushed to its host, under the path it is pulled by; without one it is pushed where it is pulled |
| EngineOutcomes.DashFreeBuildsTell | src/adomi_platform_controller/handlers/application.py:149-151 | Without dashes in namespace and application, a build's name tells both and the tag |
| EngineOutcomes.DashFreeNamesTell | src/adomi_platform_controller/handlers/application.py:153-155 | Without dashes, the names of restores and dumps tell everything they are made of |
| EngineHeld.FreshRestoreWaits | src/adomi_platform_controller/dbjobs.py:25-57 | Over every run, as long as the credential Secret is missing whenever the application is reconciled, a restoring application is neither restored nor applied, whatever the backends answer |
| EngineHeld.RestoreProceedsIff | src/adomi_platform_controller/handlers/application.py:641-700 | With everything else in place, the next pass submits the restore if and only if the Secret is there |
| EngineReconciler.Engine.SubmitWorkflow | src/adomi_platform_controller/workflows.py:70-75 | A workflow is created if absent and never patched |
| EngineReconciler.Engine.ReadPhase | src/adomi_platform_controller/workflows.py:24-30 | The phase read is the one the stored workflow has, which may have changed just before |
| EngineReconciler.Engine.ReconcileBuild | src/adomi_platform_controller/handlers/application.py:435-606 | The build gate: cluster, status patch and outcome are those of the gate that the safety and convergence results are about |
| EngineReconciler.Engine.ReconcileRestore | src/adomi_platform_controller/handlers/application.py:608-731 | The restore gate, reading the status the pass started from and writing the patch |
| EngineReconciler.Engine.ReconcileScopedSecrets | src/adomi_platform_controller/handlers/application.py:304-338 | The ExternalSecret is kept with the existing paths, or removed, and the name to load is returned |
| EngineReconciler.Engine.ApplyArgoApplication | src/adomi_platform_controller/argocd.py:88-103 | Create, or replace keeping the finalizers that are there |
| EngineReconciler.Engine.Deploy | src/adomi_platform_controller/handlers/application.py:225-297 | Delivery, Argo CD apply and the wait for SSO: the stage whose stored objects `EngineStored.PassStores` tells apart from it |
| EngineReconciler.Engine.Stages | src/adomi_platform_controller/handlers/application.py:157-299 | Everything a pass does before its patch is written |
| EngineReconciler.Engine.ReconcileApplication | src/adomi_platform_controller/handlers/application.py:157-299 | One pass: wherever it stops, the collected status patch is written |
| EngineReconciler.Engine.Dump | src/adomi_platform_controller/handlers/snapshot.py:66-110 | Submit the dump, read its phase, set phase, workflow and location |
| EngineReconciler.Engine.ReconcileSnapshot | src/adomi_platform_controller/handlers/snapshot.py:30-110 | One pass over a snapshot |
| EngineReconciler.Engine.FinalizeApplication | src/adomi_platform_controller/handlers/application.py:796-825 | Best-effort teardown of an application's own objects |
| EngineReconciler.Engine.FinalizeSnapshotObject | src/adomi_platform_controller/handlers/snapshot.py:112-131 | Teardown of a snapshot |
| Credentials.GenerateOnce | src/adomi_platform_controller/openbao.py:93-117 | Over every run of database and SSO reconciles and database finalizes, a non-empty value at any path never changes and no other key is added, changed or dropped |
| Credentials.OwnersAgreeIff | src/adomi_platform_controller/handlers/database.py:112-152 | In all runs, owner Secrets hold the passwords in OpenBao if and only if each owner Secret is used with one path |
| Credentials.SharedPathsSharePasswords | src/adomi_platform_controller/resolve.py:237-242 | Databases that share server and user share the password in their owner Secrets |
| Credentials.SameNameDatabasesDisagree | src/adomi_platform_controller/handlers/database.py:32-41 | Two databases of one name on one server, with two users, end with a Secret that disagrees |
| DatabaseReconciler.Reconciler.EnsureKeysAt | src/adomi_platform_controller/openbao.py:93-117 | The loop over wanted keys: fills exactly the missing and empty ones, writes back once if anything changed, and returns the map that is stored |
| DatabaseReconciler.Reconciler.ApplyOwnerSecret | src/adomi_platform_controller/buildsecrets.py:51-61 | Create-only |
| DatabaseReconciler.Reconciler.ProvideCredentials | src/adomi_platform_controller/handlers/database.py:112-152 | Password in OpenBao, then the owner Secret, stopping where a backend fails |
| DatabaseReconciler.Reconciler.ApplyProvisionJob | src/adomi_platform_controller/dbprovision.py:244-263 | Created when absent, deleted when its stamped hash differs, kept otherwise |
| DatabaseReconciler.Reconciler.DeleteProvisionJob | src/adomi_platform_controller/dbprovision.py:298-308 | Deleted if there |
| DatabaseReconciler.Reconciler.ProvideSql | src/adomi_platform_controller/handlers/database.py:154-187 | ConfigMap before Job |
| DatabaseReconciler.Reconciler.Await | src/adomi_platform_controller/handlers/database.py:191-268 | The Job's outcome decides Ready |
| DatabaseReconciler.Reconciler.Reconcile | src/adomi_platform_controller/handlers/database.py:43-268 | One pass over a database |
| DatabaseReconciler.Reconciler.FinalizeDatabase | src/adomi_platform_controller/handlers/database.py:270-297 | Removes Job, owner Secret and ConfigMap, each best-effort, and never the password |
| DatabaseReconciler.Reconciler.ReconcileSso | src/adomi_platform_controller/handlers/ssoapplication.py:190-216 | Generate-once client id and secret |
| Provisioning.ReadyMeansCurrentSql | src/adomi_platform_controller/handlers/database.py:146-211 | Over every run, whatever calls fail, a database becomes Ready only when the last thing that happened to its Job is that it completed stamped with the SQL of the present spec; Jobs live one after the other |
| Provisioning.ReadyIsLogged | src/adomi_platform_controller/handlers/database.py:180-211 | A pass that leaves Ready=True is such an event, for the SQL the pass read |
| ProvisioningShared.EditReachesIff | src/adomi_platform_controller/dbprovision.py:244-263 | Over all states and all interludes that make a set of uses, two passes that get through leave a Job stamped with the SQL asked for, if and only if no use of the set has the Job with different SQL |
| ProvisioningShared.OneJobIff | src/adomi_platform_controller/dbprovision.py:244-263 | Over all runs without deletions, and over those without edits too, no Job is created a second time, if and only if no two uses share server namespace and Job name with different SQL |
| ProvisioningShared.SharedJobNames | src/adomi_platform_controller/handlers/database.py:31-41 | Exactly which database names share a Job name, truncation included |
| ProvisioningShared.NamesakesLoseTheirJobs | src/adomi_platform_controller/handlers/database.py:154-187 | Two unedited databases called `app` take the Job from each other |
| ProvisioningTruth.RanIffWhole | src/adomi_platform_controller/handlers/database.py:154-191 | For any set of databases whose passes may stop between ConfigMap and Job: the reported SQL is the SQL that ran in all runs, if and only if the set is empty |
| Provisioning.SameFileSameJob | src/adomi_platform_controller/handlers/database.py:31-41 | ConfigMaps are never shared by different Jobs, truncation included |
| ProvisioningScript.PrefixRuns | src/adomi_platform_controller/dbprovision.py:58-103 | No statement of the script is rejected from any state, and what each prefix has achieved |
| ProvisioningScript.ScriptProvisions | src/adomi_platform_controller/dbprovision.py:58-103 | The statements, from any state: the database ends up present and owned by the user, the role with login and the password, and every other database and role as it was; `ProvisioningText.SqlProvisions` says so of the text |
| ProvisioningScript.RetryCompletes | src/adomi_platform_controller/dbprovision.py:58-103 | A run of the statements stopped after any one and then repeated ends where one run ends, so a second run changes nothing; `ProvisioningText.SqlRetryCompletes` says so of the text |
| ProvisioningScript.ScriptsCommute | src/adomi_platform_controller/dbprovision.py:58-103 | Scripts for different databases and users commute |
| ProvisioningText.SqlProvisions | src/adomi_platform_controller/dbprovision.py:58-119 | The stored text, read by its words and run with every unguarded CREATE of something present rejected: from any state of the server it gets through the platform's part, which does what is said of the statements, and the chart's own statements come last, connected to the new database |
| ProvisioningText.SqlRetryCompletes | src/adomi_platform_controller/dbprovision.py:58-119 | A run of the text that stopped after any command of the platform's part, followed by a run in a new session, ends where one whole run ends |
| ProvisioningText.StatementIsRead | src/adomi_platform_controller/dbprovision.py:80-97 | The lines of each statement, whatever follows them, are read as the guarded or unguarded command that the statement is |
| ProvisioningOutcomes.PassTells | src/adomi_platform_controller/handlers/database.py:43-268 | From any state, each Ready condition that a pass writes has its cause; Ready means that owner Secret, SQL and completed Job are in the namespace of the nearest reconciled server, and the credentials are delivered |
| ProvisioningOutcomes.ServerIsNearest | src/adomi_platform_controller/handlers/database.py:77-97 | The server beside the database comes first, then the one in the namespace of its client, and nothing else |
| ProvisioningOutcomes.PathsTellUsers | src/adomi_platform_controller/resolve.py:237-242 | A path in the spec is taken; otherwise databases have one path if and only if they have one server and one user |
| ProvisioningOutcomes.PodRunsTheFile | src/adomi_platform_controller/dbprovision.py:106-119 | Each start of an active Job's pod runs what the ConfigMap then holds |
| ProvisioningOutcomes.EditKeepsRecord | src/adomi_platform_controller/handlers/database.py:43-47 | An edit keeps what the passes have recorded |
| ProvisioningOutcomes.TeardownIsExact | src/adomi_platform_controller/handlers/database.py:270-297 | A removal takes Job, owner Secret and ConfigMap, each as far as its deletion goes through, and nothing else |
| ProvisioningOutcomes.ObjectNames | src/adomi_platform_controller/handlers/database.py:27-41 | What the objects of a database are called |
| ScopedSecrets.ScopedSecretsRefineTable | src/adomi_platform_controller/resolve.py:208-225 | After any run of sets and removes at all four scopes, from any store, the map delivered by merging the existing paths in order gives every name the nearest scope's value, and no path is kept exactly when no scope holds a name |
| ScopedSecrets.KeysInjective | src/adomi_platform_api/routers/scoped.py:35-48 | Different scopes are stored under different keys, for every prefix and slash-free names |
| ScopedSecrets.SidesAgreeIffSlugIsName | src/adomi_platform_api/routers/scoped.py:35-48 | API and controller paths agree if and only if the client's slug is its name |
| ScopedSecrets.SecretsStore.Call | src/adomi_platform_api/secrets.py:66-80 | One retry with a fresh token; allowed exactly when the first or the renewed token is accepted |
| ScopedSecrets.SecretsStore.SetSecret | src/adomi_platform_api/secrets.py:101-109 | Read, change, write: exactly one name of one path changes, or nothing |
| ScopedSecrets.SecretsStore.RemoveSecret | src/adomi_platform_api/secrets.py:111-134 | Removes the name, with its path when it was the last one, and says whether it was there |
| ScopedSecrets.Delivery.Reconcile | src/adomi_platform_controller/handlers/application.py:304-338 | Keeps an ExternalSecret of exactly the existing paths in order, removes it when there are none, and does nothing when OpenBao does not answer |
| GitVariables.GitRefinesTable | src/adomi_platform_api/service.py:31-138 | Over every sequential run of upserts, sets, removes and deletes, each resource's list has distinct names and is, as a map, that of an abstract table; upserts without variables change no map, deletes forget one |
| GitVariables.OthersUntouched | src/adomi_platform_schema/__init__.py:80-82 | No operation, whatever its outcome, touches another resource's file |
| GitVariables.PathsInjective | src/adomi_platform_schema/__init__.py:80-82 | Different valid resources have different repositories or paths |
| GitVariables.LastSetIsLast | src/adomi_platform_api/service.py:78-110 | The variable set last is last in the list, after the others in their order |
| GitVariables.GitKeepsSettings | src/adomi_platform_api/service.py:31-138 | Over every run a resource's settings are those of its last upsert and its kind, client and name are its own; setting and removing variables leaves them alone, a delete forgets them |
| GitVariables.OutcomeFollowsTable | src/adomi_platform_api/service.py:78-110 | What each request answers, told from the table, and that only `Done` changes anything |
| GitVariables.LastRemovalDropsKey | src/adomi_platform_api/service.py:92-107 | Over every run no manifest is committed with an empty list, unless an upsert brings one |
| GitVariables.PluralsOfKinds | src/adomi_platform_schema/__init__.py:38-49 | The directory of each kind is its name in the plural |
| GitVariables.ScopesShareIff | src/adomi_platform_api/routers/scoped.py:26-33 | Application scopes share a file if and only if the applications share a name |
| GitVariables.ForgejoWriter.PutFile | src/adomi_platform_api/git/forgejo.py:144-163 | The contents API creates only when absent and updates only with the current sha |
| GitVariables.ForgejoWriter.DeleteFile | src/adomi_platform_api/git/forgejo.py:165-175 | Deletes only with the current sha |
| GitVariables.ForgejoWriter.ApplyManifest | src/adomi_platform_api/git/forgejo.py:189-206 | With no other writer in between, the commit is accepted and stores the manifest, new or not |
| GitVariables.ForgejoWriter.ReadManifest | src/adomi_platform_api/git/forgejo.py:208-222 | Reads the stored manifest, or none |
| GitVariables.ForgejoWriter.DeleteManifest | src/adomi_platform_api/git/forgejo.py:290-306 | Removes the manifest and says whether there was one |
| GitVariables.ClientService.Commit | src/adomi_platform_api/service.py:31-68 | An upsert validates, carries committed variables over and commits |
| GitVariables.ClientService.MutateVariables | src/adomi_platform_api/service.py:78-110 | Set and remove, with the error outcomes: the operation of which `GitRefinesTable` and `GitKeepsSettings` tell what becomes of variables and settings |
| GitVariables.ClientService.Variables | src/adomi_platform_api/service.py:112-125 | Lists exactly the stored variables |
| GitVariables.ClientService.Remove | src/adomi_platform_api/service.py:127-138 | Deletes the manifest, or reports that there is none |
| Rollup.MergeMeaning | src/adomi_platform_controller/resolve.py:184-205 | The workload's environment has one item per name: an explicit entry verbatim, otherwise the nearest scope's value, otherwise none |
| Rollup.ScopeGivesLast | src/adomi_platform_controller/resolve.py:192-196 | A scope gives a name the value of its last variable of that name, empty if it has none |
| Rollup.MergedEnv | src/adomi_platform_controller/resolve.py:184-205 | The dictionary-filling loops return exactly the merge's values in order |
| Rollup.EffectiveConfig | src/adomi_platform_management/addons/adomi_platform/models/application.py:226-261 | The flag-flipping loops and the sort leave one fresh entry per record, overridden exactly when a later record has its name, in the stable order by name and flag |
| Rollup.OneWinnerPerName | src/adomi_platform_management/addons/adomi_platform/models/application.py:226-261 | Every name has exactly one entry that is not overridden, and it is the nearest scope's |
| Rollup.WinnerStandsFirst | src/adomi_platform_management/addons/adomi_platform/models/application.py:261 | Names are in order, and the winner of each stands before what it overrides, which is farthest scope first |
| Sorting.OrderSorts | src/adomi_platform_management/addons/adomi_platform/models/application.py:261 | The sort is ordered and stable |
| Sorting.FirstDifferenceDecides | src/adomi_platform_management/addons/adomi_platform/models/application.py:261 | Names are compared by the first character in which they differ, and a prefix comes first |
| Sorting.OrderHasAll | src/adomi_platform_management/addons/adomi_platform/models/application.py:261 | And keeps every entry once |
| Rollup.RollupsAgreeIff | src/adomi_platform_management/addons/adomi_platform/models/application.py:226-261 | On a name some scope declares, workload and portal agree if and only if there is no explicit entry of it and no secret of it on top |
| Rollup.RollupsAgree | src/adomi_platform_controller/resolve.py:184-205 | They agree on every name no secret and no explicit entry uses |
| ReverseSync.SyncProtects | src/adomi_platform_management/addons/adomi_platform/models/k8s_mixin.py:276-314 | A sync leaves every young record and every secret exactly as it is |
| ReverseSync.QuietPeriodProtects | src/adomi_platform_management/addons/adomi_platform/models/k8s_mixin.py:276-314 | Over any run of edits of other records and syncs against arbitrary stale specs, a record written at t survives unchanged until t plus the quiet period |
| ReverseSync.SyncKeepsDistinct | src/adomi_platform_management/addons/adomi_platform/models/k8s_mixin.py:278-314 | Variable names stay distinct |
| ReverseSync.SyncConvergesIff | src/adomi_platform_management/addons/adomi_platform/models/k8s_mixin.py:278-314 | With every record old, one sync makes the portal the spec's map if and only if no name had two records |
| ReverseSync.SyncSays | src/adomi_platform_management/addons/adomi_platform/models/k8s_mixin.py:278-314 | With every variable older than ten minutes and no name twice, a sync leaves one variable for each name of the spec, with the value of the last entry of that name, and no other |
| ReverseSync.ChangedAreStamped | src/adomi_platform_management/addons/adomi_platform/models/k8s_mixin.py:299-309 | What a sync changes is a variable written now: a new one, or an old one with another value |
| ReverseSync.MirrorIsStable | src/adomi_platform_management/addons/adomi_platform/models/k8s_mixin.py:278-314 | A sync against what is mirrored changes nothing, at any time |
| ReverseSync.ConvergedForGood | src/adomi_platform_management/addons/adomi_platform/models/k8s_mixin.py:278-314 | Nor do any number of later syncs |
| ReverseSync.AbsentNameReturnsIff | src/adomi_platform_management/addons/adomi_platform/models/k8s_mixin.py:303-308 | A name without a record gets one if and only if the spec has it |
| ReverseSync.Scope.SyncVariables | src/adomi_platform_management/addons/adomi_platform/models/k8s_mixin.py:278-314 | The four loops, over records changed in place, do exactly what the lemmas above are about |
| ReverseSync.Scope.WriteDesired | src/adomi_platform_management/addons/adomi_platform/models/k8s_mixin.py:299-309 | Creates what is missing, writes what differs and is old |
| ReverseSync.Scope.DropOthers | src/adomi_platform_management/addons/adomi_platform/models/k8s_mixin.py:310-314 | Unlinks what is old and not in the spec |
| ImportSweep.SweepIsExact | src/adomi_platform_management/addons/adomi_platform/models/k8s_mixin.py:352-443 | From records with distinct identities, one sweep leaves exactly one record for each type, client, and environment and application whose parents and type are there, each with its own resource's status, and every other record as it was |
| ImportSweep.SweepTwice | src/adomi_platform_management/addons/adomi_platform/models/k8s_mixin.py:418-443 | A second sweep of the same cluster changes nothing |
| ImportSweep.OwnStatusIff | src/adomi_platform_management/addons/adomi_platform/models/application.py:263-272 | In no portal does an application resource change another client's record, if and only if it is in that client's namespace |
| ImportSweep.OwnEnvStatusIff | src/adomi_platform_management/addons/adomi_platform/models/environment.py:59-68 | The same for environment resources, if and only if `clientRef` names the client, or is empty and the namespace is that client's |
| ImportSweep.EnvironmentStep | src/adomi_platform_management/addons/adomi_platform/models/environment.py:59-83 | Importing an environment writes its own row, if it or its client is there, and nothing else |
| ImportSweep.ApplicationStep | src/adomi_platform_management/addons/adomi_platform/models/application.py:263-304 | Importing an application refreshes its own row, or adds it under its environment and type, and nothing else |
| ImportSweep.CreatedIsFound | src/adomi_platform_management/addons/adomi_platform/models/application.py:263-304 | A record created by an import is found by that resource's identity search |
| ImportSweep.SlugTells | src/adomi_platform_management/addons/adomi_platform/models/k8s_mixin.py:353-362 | A namespace belongs to a client exactly when it is the prefix and the client's slug |
| ImportSweep.Management.ImportOneEnvironment | src/adomi_platform_management/addons/adomi_platform/models/k8s_mixin.py:374-392 | Upsert by search; true exactly when the resource's own search finds a record afterwards |
| ImportSweep.Management.ImportOneApplication | src/adomi_platform_management/addons/adomi_platform/models/k8s_mixin.py:374-392 | The same for applications |
| ImportSweep.Management.ImportClient | src/adomi_platform_management/addons/adomi_platform/models/client.py:144-156 | Upsert by name alone |
| ImportSweep.Management.ImportAllEnvironments | src/adomi_platform_management/addons/adomi_platform/models/k8s_mixin.py:395-406 | The loop over one kind |
| ImportSweep.Management.ImportAllApplications | src/adomi_platform_management/addons/adomi_platform/models/k8s_mixin.py:395-406 | The loop over one kind |
| ImportSweep.Management.CronSyncAll | src/adomi_platform_management/addons/adomi_platform/models/k8s_mixin.py:418-443 | The kinds in dependency order are the sweep |
| AccessGate.NeverLockedOutIff | src/adomi_platform_api/routers/identity.py:36-44 | Over all runs of grants that may stop after any call and completed revokes about a set of applications, no group is bound and empty, if and only if applications of one access group have the same registrations; and exactly then, when nothing is cut short, every application is bound exactly while its group has members |
| AccessGate.NeverLockedOut | src/adomi_platform_api/routers/identity.py:124-193 | From every state in which the gates are open and bound to their own applications only, such runs keep them so |
| AccessGate.SharedGroupLocks | src/adomi_platform_api/routers/identity.py:72-75 | A grant on one of two applications of a group and a revoke of that member through the other lock everybody out of a registration that only the first has |
| AccessGate.SharedReleaseNames | src/adomi_platform_api/routers/identity.py:36-44 | Different applications of ordinary names have one access group |
| AccessGate.NamesakesLockOut | src/adomi_platform_api/routers/identity.py:124-193 | They lock everybody out, with every call answered |
| AccessGate.CompletedRevokeOpensIff | src/adomi_platform_api/routers/identity.py:164-193 | From any state, in particular after a cut revoke, a completed revoke leaves its gate open if and only if members are left or the group is bound to nothing beyond the application's registrations; every other gate is as open as before |
| AccessGate.RevokeStopsIff | src/adomi_platform_api/routers/identity.py:164-193 | A revoke stops if and only if no call is answered, or it takes the last member and fewer calls are answered than that one and one for each binding of the group on the application's registrations |
| AccessGate.RevokeLocksIff | src/adomi_platform_api/routers/identity.py:164-193 | A revoke locks everybody out of an open gate if and only if it takes the last member with at least one call answered, and either no more calls are answered than there are such bindings or the group is bound beyond the application's registrations |
| AccessGate.ServeTouchesOneGroup | src/adomi_platform_api/identity.py:187-208 | Wherever a request stops, the other groups and their bindings are as they were |
| AccessGate.GrantMembers | src/adomi_platform_api/routers/identity.py:124-162 | A grant that goes on and has registrations leaves exactly the old members and the user, one without registrations changes nobody, and one that stops leaves the old members or these |
| AccessGate.ServeMembers | src/adomi_platform_api/routers/identity.py:124-193 | The same for grants and revokes, for every group |
| AccessGate.MembersRefineTable | src/adomi_platform_api/routers/identity.py:124-193 | Over all runs in which nothing is cut short, the members of each group are those of an abstract table of grants and revokes |
| AccessGate.AuthentikAdmin.EnsureGroupNamed | src/adomi_platform_api/identity.py:132-140 | Found or created |
| AccessGate.AuthentikAdmin.SetMembers | src/adomi_platform_api/identity.py:145-156 | The membership calls |
| AccessGate.AuthentikAdmin.EnsureBinding | src/adomi_platform_api/identity.py:187-198 | Binds once |
| AccessGate.AuthentikAdmin.RemoveBinding | src/adomi_platform_api/identity.py:200-208 | Deletes each binding of the group on the application, as far as calls are answered |
| AccessGate.AuthentikAdmin.GrantAccess | src/adomi_platform_api/routers/identity.py:124-162 | The application's group, member, then bindings, stopping at the first call that fails; `GrantMembers` tells who is in afterwards |
| AccessGate.AuthentikAdmin.RevokeAccess | src/adomi_platform_api/routers/identity.py:164-193 | Member, then bindings when nobody is left, stopping at the first call that fails |
| Requeue.FirstReconcileReachesAll | src/adomi_platform_controller/requeue.py:33-95 | Over any run that does not remove the parent, of parents of all kinds sharing one annotation and of refused patches, its first reconcile at a generation changes exactly the applications that inherit from it (`RequeueHeirs.StampedIff`) and whose patch goes through, and an answered second one changes exactly the rest |
| Requeue.PassedOverIff | src/adomi_platform_controller/requeue.py:66-73 | A fan-out passes over an heir if and only if this very parent put the last stamp on it at this generation |
| Requeue.MissedIff | src/adomi_platform_controller/requeue.py:33-95 | Over any run with creation, edits and removal of parents, the first reconcile of a parent at its generation misses an heir if and only if an earlier life of the parent put the last stamp on it at that generation |
| Requeue.NeverMissesIff | src/adomi_platform_controller/requeue.py:33-95 | Over all runs no first reconcile misses an heir, if and only if no parent is removed; one removal of any parent is enough |
| Requeue.RetryReaches | src/adomi_platform_controller/requeue.py:42-45 | What a refused listing or patch leaves behind is exactly what the next fan-out has to change |
| Requeue.RevisionsInjective | src/adomi_platform_controller/requeue.py:28-30 | Revisions of different parents or generations differ, for names without `/` and `@` |
| RequeueHeirs.ChangeIsInherited | src/adomi_platform_controller/requeue.py:98-120 | A change of one parent that changes what an application resolves to is a change of one that the application refers to, and the application is among the heirs |
| RequeueHeirs.StampedIff | src/adomi_platform_controller/requeue.py:33-120 | A fan-out stamps an application if and only if it does not refer to another parent of the kind or namespace |
| RequeueHeirs.ChangeReachesApplication | src/adomi_platform_controller/requeue.py:33-120 | In every run that does not remove the parent, such a change is stamped on the application by the first answered reconcile at the parent's generation |
| RequeueHeirs.RevisionFormat | src/adomi_platform_controller/requeue.py:28-30 | What the annotation looks like |
| Requeue.Cluster.RequeueApplications | src/adomi_platform_controller/requeue.py:33-95 | The loop over the listing stamps exactly the matching applications (`RequeueHeirs.StampedIff`) whose patch goes through and returns how many; a refused listing stamps none |
| Requeue.Cluster.Stamp | src/adomi_platform_controller/requeue.py:66-90 | One application of the listing, with the swallowed failure of its patch |
| DockerfileMeaning.DockerfileSaysWhatWasAsked | src/adomi_platform_management/addons/adomi_platform_odoo/models/pipeline.py:79-156 | Splitting the rendered text into lines, dropping comments and joining continued lines gives exactly the instructions asked for |
| DockerfileMisreads.SaysWhatWasAskedIff | src/adomi_platform_management/addons/adomi_platform_odoo/models/pipeline.py:79-156 | For all pipelines of one-line entries it does so if and only if the base image does not continue its line, no package is a comment, and the last `pip` package is not blank, ends in no space or backslash and does not continue its line |
| Dockerfile.RenderDockerfile | src/adomi_platform_management/addons/adomi_platform_odoo/models/pipeline.py:79-156 | The line buffer, appended to and edited at its last line, is the text that the reading result is about |
| Dockerfile.AppendSource | src/adomi_platform_management/addons/adomi_platform_odoo/models/pipeline.py:106-125 | One source's stage; the last module line loses its continuation |
| Dockerfile.AppendCopies | src/adomi_platform_management/addons/adomi_platform_odoo/models/pipeline.py:152-153 | One copy from each stage |
| DockerfileMeaning.StageNamesDiffer | src/adomi_platform_management/addons/adomi_platform_odoo/models/pipeline.py:33-39 | Stage names differ pairwise and from the fixed stages, whatever the repositories are called |
| DockerfileMeaning.CopiesFollowStages | src/adomi_platform_management/addons/adomi_platform_odoo/models/pipeline.py:93-156 | Each source is copied once, in order, from a stage declared before |
| DockerfileImage.TextBuildsImage | src/adomi_platform_management/addons/adomi_platform_odoo/models/pipeline.py:79-156 | The rendered text, split into lines, instructions and words and carried out stage by stage, builds the image that is wanted: the base image with the packages in order, run as `ubuntu`, and in its volumes the configuration, the repository's own addons and of every source exactly the modules named, at its branch, or all of them when none is named |
| DockerfileImage.CommitBuildsImage | src/adomi_platform_management/addons/adomi_platform_odoo/models/application.py:107-151 | After a commit of the tab the repository's `Dockerfile` builds the tab's image and its manifest is the tab's pipeline, and no other file changes |
| DockerfileWords.CloneWords | src/adomi_platform_management/addons/adomi_platform_odoo/models/pipeline.py:110-114 | The clone has the repository, and the branch if one is given, as words of their own |
| DockerfileMeaning.GitSuffixIsNoMatter | src/adomi_platform_management/addons/adomi_platform_odoo/models/pipeline.py:33-39 | The stage is named alike with and without `.git` at the end of the address |
| PipelineManifest.ParseRendered | src/adomi_platform_management/addons/adomi_platform_odoo/models/pipeline.py:42-76 | Parsing a rendered manifest gives the normalized pipeline |
| PipelineManifest.KeysAreRead | src/adomi_platform_management/addons/adomi_platform_odoo/models/pipeline.py:61-76 | A manifest that holds these keys, whoever wrote it, is read as the pipeline of their values |
| PipelineManifest.KeysAreWritten | src/adomi_platform_management/addons/adomi_platform_odoo/models/pipeline.py:42-58 | A rendered manifest holds these keys with the pipeline's values |
| PipelineManifest.LinesOfJoined | src/adomi_platform_management/addons/adomi_platform_odoo/models/application.py:17-18 | Joining entries into a text field and taking its lines gives the entries back |
| PipelineManifest.ImportAfterCommit | src/adomi_platform_management/addons/adomi_platform_odoo/models/application.py:107-190 | Commit then import leaves the tab with the normalized pipeline |
| PipelineManifest.CommitImportCommit | src/adomi_platform_management/addons/adomi_platform_odoo/models/application.py:107-190 | Commit, import, commit writes no file the second time, if and only if every source names its repository |
| PipelineManifest.PipelineTab.Commit | src/adomi_platform_management/addons/adomi_platform_odoo/models/application.py:118-151 | Writes exactly the files whose text differs, and counts them |
| PipelineManifest.PipelineTab.Import | src/adomi_platform_management/addons/adomi_platform_odoo/models/application.py:153-190 | Reads the manifest into the tab, or fails when there is none |
| DeepMerge.PathSemantics | src/adomi_platform_controller/resolve.py:245-256 | What the merge shows at any path is determined by what the two layers show there |
| DeepMerge.MergeIdentities | src/adomi_platform_controller/resolve.py:245-256 | Nothing is a unit on both sides, and merging a layer with itself is the identity |
| DeepMerge.LastLeavesWin | src/adomi_platform_controller/resolve.py:245-256 | Every leaf of the last of any number of layers survives |
| DeepMerge.AssociativeIff | src/adomi_platform_controller/resolve.py:245-256 | The exact condition for associativity |
| DeepMerge.SameShapeIsAssociative | src/adomi_platform_controller/resolve.py:245-256 | Layers that never disagree on dictionary versus leaf merge associatively |
| DeepMerge.NotAssociative | src/adomi_platform_controller/resolve.py:245-256 | Dictionary, leaf, dictionary at one key breaks it |
| DeepMerge.Run | src/adomi_platform_controller/resolve.py:245-256 | Over mutable dictionaries that may be shared between layers: the result is fresh and reads as the merge, and no existing dictionary changes |
| DeepMerge.MergeLayer | src/adomi_platform_controller/resolve.py:250-255 | The inner loop merges one layer into the output |
| DeepMerge.MergeItem | src/adomi_platform_controller/resolve.py:251-255 | One item, recursing when both sides are dictionaries |
| Names.SlugIsValid | src/adomi_platform_management/addons/adomi_platform/models/k8s.py:22-27 | The slug of any string is a valid name |
| Names.SlugIdempotent | src/adomi_platform_management/addons/adomi_platform/models/k8s.py:22-27 | Slugging twice is slugging once, and the fixed points are exactly the valid names |
| Names.ReleaseNamesAgree | src/adomi_platform_controller/resolve.py:115-121 | Namespace, release and host label of valid names are valid labels, and controller, API and portal agree on them |
| Names.FittingNamesAreWhole | src/adomi_platform_controller/resolve.py:115-121 | Names that fit are joined in full and in order |
| Names.PartsStayApart | src/adomi_platform_management/addons/adomi_platform/models/k8s.py:22-27 | What a run of other characters separates stays apart, by one dash |
| Names.SlugOfWords | src/adomi_platform_management/addons/adomi_platform/models/k8s.py:22-27 | Two words that fit make a slug of both with one dash between them |
| Names.SanitizedTagIsValid | src/adomi_platform_controller/resolve.py:164-169 | A sanitized ref is a tag as the OCI Distribution Specification has it |
| Names.SanitizeIdempotentIff | src/adomi_platform_controller/resolve.py:164-169 | Idempotent if and only if nothing is cut off, or the 128th character before the cut is neither `.` nor `-` |
| Names.SanitizeNotIdempotent | src/adomi_platform_controller/resolve.py:164-169 | The cut can leave one |

## Left out

- EngineSafety.GateSafety: the restore that comes before an apply may have been into an earlier environment of the application, because `restoredFrom` does not record where it restored to.
- EngineRuns.Converges: needs the references present, answering backends and workflows that do not fail; a restoring application also needs its credential Secret delivered, as `EngineHeld.RestoreProceedsIff` shows.
- AccessGate.NeverLockedOutIff: the SSO registrations and their slugs stay the same during a run.
- Requeue.MissedIff: a reconcile reads the parent's present generation; a handler that still runs on an older event is not modelled.
- ImportSweep.Management.ImportClient: does not model the link to the client's organization, as organizations are not swept here.
- DockerfileImage.TextBuildsImage: every entry is one word of the shell, and the base image is not named like one of the stages; quoting, globbing and expansion by the shell are not modelled.
- ProvisioningText.SqlProvisions: of SQL and psql the reader knows the commands that the script consists of; the chart's own statements have any effect.
- ImportSweep.SweepIsExact: resources are in their client's namespace with a matching `clientRef`; organizations, domains, database servers, repositories and snapshots are not swept, optional links and the count of imported records are not modelled, and one resource's error skipping that resource is not either.
- Interleaving inside a pass: two passes do not overlap; a workflow's or a Job's report during a pass is the only thing that comes in between.
- Concurrent read-modify-write on git and on OpenBao: neither has a compare-and-set across the read and the write, so runs are sequential.
- Pull requests: the pull-request mode of the git writer, preview environments and the feedback on a pull request.
- HTTP, Kubernetes, Authentik, GitHub and OpenBao clients are maps with the calls the code makes; authentication of the callers is not modelled.
- SHA-256 is injective (a stamp is the SQL itself), generators return any non-empty string, and YAML is lossless on the document tree.
- Python's lower-casing and letter test are parameters (`lower`, `Letters`) with the few facts about ASCII that the results need.
- The contents of `initSql`, and the server's host, which the provisioning hash does not cover.
- The ASCII check of secret names at the API, and the refresh interval of ExternalSecrets.
- The shared name of the database-password Secrets within a namespace that the snapshot and restore jobs mount.
- The heredoc syntax of Dockerfiles and escapes inside instructions: lines are read up to continuation and comments, and instructions as words between blanks.
- Chart values other than the image, host, OIDC and the delivered Secret: they are one opaque part of the spec.
- FastAPI wiring, pydantic models, Helm charts, Odoo views, wizards, observability and the field-copying builders, which would only add easy members.
