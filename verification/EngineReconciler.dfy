/** The reconcilers as the controller runs them: objects of the cluster are created and replaced one at a time, the
    status patch is filled field by field, and a pass stops at the first `fail`. Each method is shown to do exactly what
    the transition system says. */
module EngineReconciler {
  import opened Wrappers
  import opened EngineModel
  import Names
  import Secrets = ScopedSecrets

  /** The pushed name of an image, and whether the endpoint is a plain-text one. */
  function PushImage(image: string, pushEndpoint: string): (r: (string, bool))
    ensures r == (PushRef(image, pushEndpoint), "http://" <= Endpoint(pushEndpoint))
  {
    var endpoint := Endpoint(pushEndpoint);
    if endpoint == "" then (image, false)
    else (AfterScheme(endpoint) + "/" + AfterSlash(image), "http://" <= endpoint)
  }

  class Engine {
    var apps: map<Id, App>
    var snapshots: map<Id, Snapshot>
    var workflows: map<string, Workflow>
    var argo: map<string, ArgoApp>
    var externalSecrets: map<(string, string), seq<string>>
    var namespaces: set<string>
    var world: World
    ghost var history: seq<Event>

    /** The status patches that the current pass collects. */
    var patch: AppStatus
    var snapshotPatch: SnapshotStatus

    ghost function View(): Cluster
      reads this
    {
      Cluster(apps, snapshots, workflows, argo, externalSecrets, namespaces, world, history)
    }

    constructor (w: World)
      ensures View() == Fresh(w)
    {
      apps, snapshots, workflows, argo, externalSecrets := map[], map[], map[], map[], map[];
      namespaces, world, history, patch, snapshotPatch := {}, w, [], NO_STATUS, NO_SNAPSHOT_STATUS;
    }

    /** A submitted workflow is never patched: it is created only if it is absent. */
    method SubmitWorkflow(owner: Id, name: string, parameters: Parameters)
      modifies this`workflows, this`history
      ensures View() == Submit(old(View()), owner, name, parameters)
    {
      if name !in workflows {
        workflows := workflows[name := Workflow(parameters, Unreported)];
        history := history + [Submitted(owner, name, parameters)];
      }
    }

    /** Reads the phase of a workflow, which may have reported just before. */
    method ReadPhase(name: string, news: Option<Phase>) returns (phase: Phase)
      modifies this`workflows, this`history
      ensures View() == Hear(old(View()), name, news) && phase == PhaseOf(View(), name)
    {
      if news.Some? && name in workflows {
        var parameters := workflows[name].parameters;
        workflows := workflows[name := Workflow(parameters, news.value)];
        history := history + if news.value == Succeeded then [Finished(name, parameters)] else [];
      }
      phase := if name in workflows then workflows[name].phase else Unreported;
    }

    /** The build gate. */
    method ReconcileBuild(id: Id, eff: Effective, source: Source, o: Oracle) returns (gate: Gate)
      modifies this`workflows, this`history, this`patch
      ensures Staged(View(), patch, gate) == BuildGate(old(View()), id, source, eff, old(patch), o)
    {
      hide BuildName, ImageRef;
      if source.repository == "" { return Held(InvalidSpec); }
      var repoId := Id(id.namespace, source.repository);
      if repoId !in world.repositories || world.repositories[repoId].url == "" { return Held(DependencyNotMet); }
      var repo := world.repositories[repoId];
      if world.config.harborHost == "" { return Held(InvalidSpec); }
      if world.config.harborPassword == "" { return Held(DependencyNotMet); }
      var ref := FirstOf(source.ref, FirstOf(repo.defaultBranch, "main"));
      var image := ImageRef(world.config, eff.clientSlug, eff.app, ref);
      var base := FirstOf(source.baseImage, eff.platformImage);
      var (pushImage, insecure) := PushImage(image, world.config.harborPushEndpoint);
      if !o.buildSecrets { return Held(BackendError); }
      var wf := BuildName(eff.namespace, eff.app, ref);
      if !o.buildSubmit { return Held(BackendError); }
      var request := BuildParameters(repo.url, ref, FirstOf(source.contextPath, "."), FirstOf(source.dockerfile, "Dockerfile"),
                                     base, pushImage, insecure);
      SubmitWorkflow(id, wf, request);
      patch := patch.(buildWorkflow := wf);
      var phase := ReadPhase(wf, o.buildNews);
      if phase == Succeeded { return Open(image, Some(request)); }
      if phase == Failed || phase == Error {
        patch := patch.(phase := BuildFailed);
        return Held(BackendError);
      }
      patch := patch.(phase := Building);
      gate := Held(Reconciling);
    }

    /** The restore gate. The pass reads the status it started from, and writes the patch. */
    method ReconcileRestore(id: Id, eff: Effective, spec: AppSpec, restore: Restore, image: string, o: Oracle)
      returns (gate: Gate)
      modifies this`workflows, this`history, this`patch
      ensures Staged(View(), patch, gate) == RestoreGate(old(View()), id, spec, restore, eff, image, old(patch), o)
    {
      hide RestoreName, DumpKey, ConnectionOf, JobSecretsPresent;
      var conn := ConnectionOf(world, id.namespace, spec.databases, eff.namespace);
      if conn.None? { return Held(DependencyNotMet); }
      if restore.snapshot == "" { return Held(InvalidSpec); }
      if patch.restoredFrom == restore.snapshot { return Open("", None); }
      var snapshot := Id(id.namespace, restore.snapshot);
      if snapshot !in snapshots { return Held(DependencyNotMet); }
      var taken := snapshots[snapshot].status;
      if taken.phase != Completed || taken.location == "" { return Held(DependencyNotMet); }
      var sanitize := if restore.sanitize.Some? then restore.sanitize.value else eff.class_ != "production";
      var wf := RestoreName(eff.namespace, eff.app, restore.snapshot);
      if !JobSecretsPresent(world, conn.value) || !o.jobSecrets || !o.jobSubmit { return Held(BackendError); }
      var odooImage := if image != "" then image else eff.platformImage;
      SubmitWorkflow(id, wf, RestoreParameters(conn.value, DumpKey(snapshot), odooImage, sanitize));
      patch := patch.(restoreWorkflow := wf);
      var phase := ReadPhase(wf, o.jobNews);
      if phase == Succeeded {
        patch := patch.(restoredFrom := restore.snapshot);
        return Open("", None);
      }
      if phase == Failed || phase == Error {
        patch := patch.(phase := RestoreFailed);
        return Held(BackendError);
      }
      patch := patch.(phase := Restoring);
      gate := Held(Reconciling);
    }

    /** The delivery of scoped secrets; the name of the delivered Secret, or "". */
    method ReconcileScopedSecrets(eff: Effective, answers: bool) returns (delivered: string)
      modifies this`externalSecrets
      ensures View() == DeliverSecrets(old(View()), eff, answers)
      ensures delivered == DeliveredSecret(world, eff, answers)
    {
      if !answers { return ""; }
      var name := Secrets.ScopedSecretName(eff.app);
      var kept := Secrets.KeptPaths(world.openbao, eff.secretPaths);
      if kept == [] {
        externalSecrets := externalSecrets - {(eff.namespace, name)};
        return "";
      }
      externalSecrets := externalSecrets[(eff.namespace, name) := kept];
      delivered := name;
    }

    /** Creates the Argo CD Application, or replaces it with the finalizers it has. */
    method ApplyArgoApplication(name: string, values: Values, destination: string)
      modifies this`argo
      ensures argo == ApplyArgo(old(argo), name, values, destination)
    {
      if name !in argo {
        assert {} + {ARGO_FINALIZER} == {ARGO_FINALIZER};
        argo := argo[name := ArgoApp(values, destination, {ARGO_FINALIZER})];
      } else {
        var finalizers := argo[name].finalizers;
        finalizers := finalizers + {ARGO_FINALIZER};
        argo := argo[name := ArgoApp(values, destination, finalizers)];
      }
    }

    /** The deployment: delivery of secrets, the Argo CD Application, and the wait for SSO. */
    method Deploy(id: Id, eff: Effective, spec: AppSpec, image: string, build: Option<Parameters>, o: Oracle)
      returns (gate: Gate)
      modifies this`argo, this`externalSecrets, this`history, this`patch
      ensures Staged(View(), patch, gate) == DeployStage(old(View()), id, spec, eff, image, build, old(patch), o)
    {
      hide ResolveOidc, DeliveredSecret, DeliveredSecrets, Names.ArgoAppName;
      var (oidc, ssoReady) := ResolveOidc(world, spec, eff.namespace);
      var envFromSecret := ReconcileScopedSecrets(eff, o.openbao);
      var values := Values(eff.clientSlug, eff.chart, image, eff.host, oidc, envFromSecret, spec);
      if !o.argo { return Held(BackendError); }
      var name := Names.ArgoAppName(eff.namespace, eff.app);
      ApplyArgoApplication(name, values, eff.namespace);
      history := history + [Applied(id, eff.namespace, spec, build)];
      patch := patch.(url := "https://" + eff.host);
      patch := patch.(argoApplication := name);
      patch := patch.(phase := Deployed);
      if image != "" { patch := patch.(builtImage := image); }
      if !ssoReady { return Held(Reconciling); }
      gate := Open(image, build);
    }

    /** Everything up to the outcome of a pass. */
    method Stages(id: Id, o: Oracle) returns (gate: Gate)
      requires id in apps && patch == apps[id].status
      modifies this
      ensures Staged(View(), patch, gate) == PassStages(old(View()), id, old(apps[id]), o)
    {
      hide Resolve, BuildGate, RestoreGate, DeployStage;
      var spec := apps[id].spec;
      var resolved := Resolve(world, id, spec);
      if resolved.Unresolved? { return Held(resolved.reason); }
      var eff := resolved.effective;
      if eff.host == "" { return Held(InvalidSpec); }
      patch := patch.(namespace := eff.namespace);
      if !o.namespaces { return Held(BackendError); }
      namespaces := namespaces + {eff.namespace};
      gate := Open("", None);
      if spec.source.Some? {
        gate := ReconcileBuild(id, eff, spec.source.value, o);
        if gate.Held? { return; }
      }
      var image, build := gate.image, gate.build;
      if spec.restoreFrom.Some? {
        gate := ReconcileRestore(id, eff, spec, spec.restoreFrom.value, image, o);
        if gate.Held? { return; }
      }
      gate := Deploy(id, eff, spec, image, build, o);
    }

    /** One pass over an application: whatever the outcome, the collected patch is written at its end. */
    method ReconcileApplication(id: Id, o: Oracle)
      modifies this
      ensures View() == ApplicationPass(old(View()), id, o)
    {
      hide PassStages;
      if id !in apps { return; }
      patch := apps[id].status;
      var gate := Stages(id, o);
      if id in apps {
        var ready := if gate.Held? then NotReady(gate.reason) else IsReady;
        patch := patch.(ready := ready);
        patch := patch.(observedGeneration := apps[id].generation);
        apps := apps[id := apps[id].(status := patch)];
      }
    }

    /** Ends a pass over a snapshot. */
    method FinishSnapshotPass(id: Id, ready: Ready)
      requires id in snapshots
      modifies this`snapshots, this`snapshotPatch
      ensures View() == FinishSnapshot(old(View()), id, old(snapshotPatch), ready)
    {
      snapshotPatch := snapshotPatch.(ready := ready);
      snapshots := snapshots[id := snapshots[id].(status := snapshotPatch)];
    }

    /** The dump: submit, then read the phase back. */
    method Dump(id: Id, conn: Connection, o: Oracle)
      requires id in snapshots
      modifies this
      ensures View() == DumpWith(old(View()), id, conn, old(snapshotPatch), o)
    {
      hide DumpName, DumpKey;
      var wf, key := DumpName(id), DumpKey(id);
      SubmitWorkflow(id, wf, DumpParameters(conn, key));
      snapshotPatch := snapshotPatch.(workflow := wf);
      snapshotPatch := snapshotPatch.(location := "s3://" + world.config.s3Bucket + "/" + key);
      var phase := ReadPhase(wf, o.jobNews);
      if phase == Succeeded {
        snapshotPatch := snapshotPatch.(phase := Completed);
        FinishSnapshotPass(id, IsReady);
      } else if phase == Failed || phase == Error {
        snapshotPatch := snapshotPatch.(phase := DumpFailed);
        FinishSnapshotPass(id, NotReady(BackendError));
      } else {
        snapshotPatch := snapshotPatch.(phase := Dumping);
        FinishSnapshotPass(id, NotReady(Reconciling));
      }
    }

    /** One pass over a snapshot. */
    method ReconcileSnapshot(id: Id, o: Oracle)
      modifies this
      ensures View() == SnapshotPass(old(View()), id, o)
    {
      hide DumpWith, FinishSnapshot, ConnectionOf, JobSecretsPresent;
      if id !in snapshots { return; }
      snapshotPatch := snapshots[id].status;
      var application := snapshots[id].application;
      if application == "" {
        FinishSnapshotPass(id, NotReady(InvalidSpec));
        return;
      }
      var appId := Id(id.namespace, application);
      if appId !in apps {
        FinishSnapshotPass(id, NotReady(DependencyNotMet));
        return;
      }
      var conn := ConnectionOf(world, id.namespace, apps[appId].spec.databases, apps[appId].status.namespace);
      if conn.None? {
        FinishSnapshotPass(id, NotReady(DependencyNotMet));
        return;
      }
      if !JobSecretsPresent(world, conn.value) || !o.jobSecrets || !o.jobSubmit {
        FinishSnapshotPass(id, NotReady(BackendError));
        return;
      }
      Dump(id, conn.value, o);
    }

    /** Best-effort teardown of an application's own objects: each deletion may fail on its own. */
    method FinalizeApplication(id: Id, argoGone: bool, buildGone: bool, restoreGone: bool)
      modifies this
      ensures View() == FinalizeApp(old(View()), id, argoGone, buildGone, restoreGone)
    {
      if id !in apps { return; }
      var st := apps[id].status;
      apps := apps - {id};
      if st.argoApplication != "" && argoGone { argo := argo - {st.argoApplication}; }
      if st.buildWorkflow != "" && buildGone { workflows := workflows - {st.buildWorkflow}; }
      if st.restoreWorkflow != "" && restoreGone { workflows := workflows - {st.restoreWorkflow}; }
      assert workflows == FinalizeApp(old(View()), id, argoGone, buildGone, restoreGone).workflows;
    }

    method FinalizeSnapshotObject(id: Id, cleaned: bool)
      modifies this
      ensures View() == FinalizeSnapshot(old(View()), id, cleaned)
    {
      if id !in snapshots { return; }
      var wf := FirstOf(snapshots[id].status.workflow, DumpName(id));
      snapshots := snapshots - {id};
      if cleaned { workflows := workflows - {wf}; }
    }
  }
}
