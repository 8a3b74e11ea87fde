/** Two applications in one cluster: exactly when a deployment of one leaves the other alone. */
module EngineNeighbours {
  import opened Wrappers
  import opened EngineModel
  import opened EngineConvergence
  import opened EngineRuns
  import Names
  import Secrets = ScopedSecrets

  /** All stages before the deployment are behind the application, so that its next pass deploys. */
  predicate AboutToDeploy(c: Cluster, id: Id, spec: AppSpec, eff: Effective) {
    Present(c, id, spec, eff) && BuildDone(c, id, spec, eff) && Recorded(spec, c.apps[id].status)
  }

  lemma GatedDeploys(c: Cluster, id: Id, spec: AppSpec, eff: Effective, st: AppStatus, o: Oracle)
    requires Answering(o) && Usable(c, id, spec, eff, st) && BuildDone(c, id, spec, eff) && Recorded(spec, st)
    ensures var s := Gated(c, id, spec, eff, st, o);
            && s.cluster.argo == ApplyArgo(c.argo, Argo(eff), DesiredValues(c.world, id, spec, eff), eff.namespace)
            && s.cluster.externalSecrets == DeliveredSecrets(c.world, eff, true, c.externalSecrets)
  {
    hide BuildName, RestoreName, Names.ArgoAppName, RestoreGate, BuildGate, BuildBlocked, ConnectionOf, JobSecretsPresent,
      ImageOf, RefOf, DeliveredSecrets, ResolveOidc, DeliveredSecret, ApplyArgo;
    var built := if spec.source.Some? then BuildGate(c, id, spec.source.value, eff, st, o) else Staged(c, st, Open("", None));
    if spec.source.Some? { BuildMoves(c, id, spec, eff, st, o); }
    if spec.restoreFrom.Some? { RestoreMoves(built.cluster, id, spec, eff, built.gate.image, built.status, o); }
    AnsweredValues(c.world, spec, eff, built.gate.image, o);
  }

  lemma AnsweredValues(w: World, spec: AppSpec, eff: Effective, image: string, o: Oracle)
    requires o.openbao
    ensures DeployedValues(w, spec, eff, image, o) == DeployedValues(w, spec, eff, image, ALL_WELL)
  {
  }

  lemma PassDeploys(c: Cluster, id: Id, spec: AppSpec, eff: Effective, o: Oracle)
    requires Answering(o) && AboutToDeploy(c, id, spec, eff)
    ensures var c' := ApplicationPass(c, id, o);
            && c'.argo == ApplyArgo(c.argo, Argo(eff), DesiredValues(c.world, id, spec, eff), eff.namespace)
            && c'.externalSecrets == DeliveredSecrets(c.world, eff, true, c.externalSecrets)
  {
    PassIsGated(c, id, spec, eff, o);
    hide Resolve, ConnectionOf, JobSecretsPresent, BuildBlocked, Gated, ApplicationPass, BuildName, RestoreName,
      Names.ArgoAppName, DesiredValues, ResolveOidc, ImageOf, RefOf, DeliveredSecrets, ApplyArgo, Achieves;
    GatedDeploys(Entered(c, eff), id, spec, eff, EnteredStatus(c, id, eff), o);
  }

  /** Both applications want the same Argo CD Application, or have two. */
  predicate ArgoAgrees(w: World, id: Id, spec: AppSpec, eff: Effective, other: Id, spec2: AppSpec, eff2: Effective) {
    Argo(eff2) == Argo(eff) ==>
      DesiredValues(w, other, spec2, eff2) == DesiredValues(w, id, spec, eff) && eff2.namespace == eff.namespace
  }

  lemma ArgoKeptIff(c: Cluster, c': Cluster, id: Id, spec: AppSpec, eff: Effective, other: Id, spec2: AppSpec, eff2: Effective)
    requires ObjectsSettled(c, id, spec, eff)
    requires c'.argo == ApplyArgo(c.argo, Argo(eff2), DesiredValues(c.world, other, spec2, eff2), eff2.namespace)
    ensures ArgoKept(c, c', eff) <==> ArgoAgrees(c.world, id, spec, eff, other, spec2, eff2)
  {
    hide Argo, DesiredValues, DeliveredSecrets;
  }

  lemma SecretsKeptIff(c: Cluster, c': Cluster, eff: Effective, eff2: Effective)
    requires DeliveredSecrets(c.world, eff, true, c.externalSecrets) == c.externalSecrets
    requires c'.externalSecrets == DeliveredSecrets(c.world, eff2, true, c.externalSecrets)
    ensures SecretsKept(c, c', eff) <==> SecretsAgree(c.world, eff, eff2)
  {
    SecretsSettled(c.world, eff, c.externalSecrets);
    SecretsSettled(c.world, eff, c'.externalSecrets);
    hide Secrets.KeptPaths, Secrets.ScopedSecretName;
  }

  /** A deployment of one application leaves a finished other one alone, and finished, exactly when they have two Argo CD
      Applications or want the same one, and two ExternalSecrets or read the same paths. */
  lemma NeighbourIff(c: Cluster, id: Id, spec: AppSpec, eff: Effective, other: Id, spec2: AppSpec, eff2: Effective, o: Oracle)
    requires id != other && id in c.apps && Settled(c, id, spec, eff)
    requires Answering(o) && AboutToDeploy(c, other, spec2, eff2)
    ensures Undisturbed(c, ApplicationPass(c, other, o), id, spec, eff)
            <==> ArgoAgrees(c.world, id, spec, eff, other, spec2, eff2) && SecretsAgree(c.world, eff, eff2)
    ensures Settled(ApplicationPass(c, other, o), id, spec, eff)
            <==> ArgoAgrees(c.world, id, spec, eff, other, spec2, eff2) && SecretsAgree(c.world, eff, eff2)
  {
    var c' := ApplicationPass(c, other, o);
    PassDeploys(c, other, spec2, eff2, o);
    OtherPassTouches(c, other, o);
    ArgoKeptIff(c, c', id, spec, eff, other, spec2, eff2);
    SecretsKeptIff(c, c', eff, eff2);
    KeepsTheRest(c, c', id, spec, eff, eff2, AsksFor(c.world, other, spec2, eff2));
    SameWorld(c, c', eff2, AsksFor(c.world, other, spec2, eff2), Gentle(o));
    hide Resolve, ArgoKept, SecretsKept, DeliveredSecrets, DesiredValues, Undisturbed, Settled, ArgoAgrees, SecretsAgree;
    if ArgoKept(c, c', eff) && SecretsKept(c, c', eff) {
      StillSettled(c, c', id, spec, eff);
    } else {
      NoLongerSettled(c, c', id, spec, eff);
    }
  }

  lemma NoLongerSettled(c: Cluster, c': Cluster, id: Id, spec: AppSpec, eff: Effective)
    requires Settled(c, id, spec, eff) && c'.world == c.world && !(ArgoKept(c, c', eff) && SecretsKept(c, c', eff))
    requires Argo(eff) in c'.argo ==> Argo(eff) in c.argo && c.argo[Argo(eff)].finalizers <= c'.argo[Argo(eff)].finalizers
    ensures !Settled(c', id, spec, eff)
  {
    hide DesiredValues, DeliveredSecrets, Argo, BuildOf, ImageOf, ResolveOidc;
  }

  lemma KeepsTheRest(c: Cluster, c': Cluster, id: Id, spec: AppSpec, eff: Effective, eff2: Effective, asked: set<string>)
    requires id in c.apps && id in c'.apps && c'.apps[id] == c.apps[id] && Settled(c, id, spec, eff)
    requires Touches(c, c', eff2, asked, true)
    ensures Undisturbed(c, c', id, spec, eff) <==> ArgoKept(c, c', eff) && SecretsKept(c, c', eff)
  {
    ReadsItself(c.world, id, spec, eff);
    hide Resolve, ReadsSame, Argo, ArgoKept, SecretsKept, KeepsWorkflow, ObjectsSettled, BuildDone, SsoDone, BuildOf, RestoreOf,
      ImageOf;
  }

  /** Ordinary names do collide: application `eu-web` in `acme-prod` and application `web` in `acme-prod-eu` fight for one
      Argo CD Application. */
  lemma NamesakesFight(c: Cluster, id: Id, spec: AppSpec, eff: Effective, other: Id, spec2: AppSpec, eff2: Effective, o: Oracle)
    requires id != other && id in c.apps && Settled(c, id, spec, eff)
    requires Answering(o) && AboutToDeploy(c, other, spec2, eff2)
    requires eff.namespace == "acme-prod" && eff.app == "eu-web" && eff2.namespace == "acme-prod-eu" && eff2.app == "web"
    ensures !Undisturbed(c, ApplicationPass(c, other, o), id, spec, eff)
    ensures !Settled(ApplicationPass(c, other, o), id, spec, eff)
  {
    SharedArgoName();
    NeighbourIff(c, id, spec, eff, other, spec2, eff2, o);
    PassDeploys(c, other, spec2, eff2, o);
    assert Argo(eff) == Argo(eff2);
    hide Settled, AboutToDeploy, Undisturbed, ApplicationPass, SecretsAgree, DesiredValues, Argo, DeliveredSecrets;
    assert ApplicationPass(c, other, o).argo[Argo(eff)].destination == eff2.namespace;
    OtherDestination(ApplicationPass(c, other, o), id, spec, eff);
  }

  lemma OtherDestination(c: Cluster, id: Id, spec: AppSpec, eff: Effective)
    requires Argo(eff) in c.argo && c.argo[Argo(eff)].destination != eff.namespace
    ensures !Settled(c, id, spec, eff)
  {
  }

  lemma SharedArgoName()
    ensures Names.ArgoAppName("acme-prod", "eu-web") == Names.ArgoAppName("acme-prod-eu", "web")
  {
    assert "acme-prod" + "-" + "eu-web" == "acme-prod-eu" + "-" + "web";
  }

  // ---- over all runs ----

  /** Two applications whose references resolve in one world. */
  ghost predicate Placed(w: World, id: Id, spec: AppSpec, eff: Effective, other: Id, spec2: AppSpec, eff2: Effective) {
    && id != other && Resolve(w, id, spec) == Resolved(eff) && Resolve(w, other, spec2) == Resolved(eff2)
    && eff.host != "" && eff2.host != ""
  }

  /** Both are in the cluster, with any specs that resolve to these places. */
  predicate Both(c: Cluster, w: World, id: Id, eff: Effective, other: Id, eff2: Effective) {
    && c.world == w && id in c.apps && other in c.apps
    && Resolve(w, id, c.apps[id].spec) == Resolved(eff) && Resolve(w, other, c.apps[other].spec) == Resolved(eff2)
  }

  /** In no state that a run reaches does a pass over the second application disturb the first. A workflow that reports during
      the pass reports success. */
  ghost predicate NeverDisturbs(w: World, id: Id, eff: Effective, other: Id, eff2: Effective) {
    forall w0, steps, o :: Gentle(o) && Both(Run(Fresh(w0), steps), w, id, eff, other, eff2) ==>
      var c := Run(Fresh(w0), steps); Undisturbed(c, ApplicationPass(c, other, o), id, c.apps[id].spec, eff)
  }

  /** And in none does it undo the first one when that is finished. */
  ghost predicate NeverUndoes(w: World, id: Id, eff: Effective, other: Id, eff2: Effective) {
    forall w0, steps, o :: Gentle(o) && Both(Run(Fresh(w0), steps), w, id, eff, other, eff2) ==>
      var c := Run(Fresh(w0), steps);
      Settled(c, id, c.apps[id].spec, eff) ==> Settled(ApplicationPass(c, other, o), id, c.apps[id].spec, eff)
  }

  /** They have two Argo CD Applications, and two ExternalSecrets or one with the same paths. */
  predicate Apart(w: World, eff: Effective, eff2: Effective) {
    Argo(eff2) != Argo(eff) && SecretsAgree(w, eff, eff2)
  }

  lemma ApartUndisturbed(c: Cluster, id: Id, eff: Effective, other: Id, eff2: Effective, o: Oracle)
    requires id != other && Both(c, c.world, id, eff, other, eff2) && Apart(c.world, eff, eff2) && Gentle(o)
    ensures Undisturbed(c, ApplicationPass(c, other, o), id, c.apps[id].spec, eff)
  {
    OtherPassTouches(c, other, o);
    hide Resolve, Argo, AsksFor, Undisturbed, SecretsAgree, Own, ApplicationPass, Touches;
    ElsewhereUndisturbed(c, ApplicationPass(c, other, o), id, c.apps[id].spec, eff, eff2,
                         AsksFor(c.world, other, c.apps[other].spec, eff2), Gentle(o));
  }

  // ---- the run in which they meet ----

  /** An application without source, restore and SSO waits for nothing. */
  predicate IsPlain(spec: AppSpec) {
    spec.source.None? && spec.restoreFrom.None? && spec.sso == []
  }

  function Plain(spec: AppSpec, settings: string): AppSpec {
    spec.(source := None, restoreFrom := None, sso := [], settings := settings)
  }

  lemma PlainResolves(w: World, id: Id, spec: AppSpec, settings: string)
    ensures Resolve(w, id, Plain(spec, settings)) == Resolve(w, id, spec)
  {
  }

  lemma PlainIsAnswered(c: Cluster, id: Id, spec: AppSpec, eff: Effective)
    requires Present(c, id, spec, eff) && IsPlain(spec)
    ensures Answered(c, id, spec, eff) && Remaining(c, id, spec, eff) <= 2 && AboutToDeploy(c, id, spec, eff)
  {
    hide Resolve, Argo, Settled, StatusDeployed, ObjectsSettled;
  }

  /** Two passes settle a plain application, and keep what the other one needs. */
  lemma PlainSettles(c: Cluster, id: Id, spec: AppSpec, eff: Effective, other: Id, spec2: AppSpec, eff2: Effective)
    requires id != other && Present(c, id, spec, eff) && IsPlain(spec) && Present(c, other, spec2, eff2) && IsPlain(spec2)
    ensures var c' := ApplicationPass(ApplicationPass(c, id, ALL_WELL), id, ALL_WELL);
            && c'.world == c.world && Present(c', id, spec, eff) && Settled(c', id, spec, eff)
            && Present(c', other, spec2, eff2) && AboutToDeploy(c', other, spec2, eff2)
  {
    hide Resolve, Present, Settled, Remaining, ApplicationPass, Answered, AboutToDeploy, IsPlain;
    var c1 := ApplicationPass(c, id, ALL_WELL);
    var c2 := ApplicationPass(c1, id, ALL_WELL);
    PlainIsAnswered(c, id, spec, eff);
    PassDescends(c, id, spec, eff, ALL_WELL);
    OtherStaysPresent(c, id, other, spec2, eff2);
    PlainIsAnswered(c1, id, spec, eff);
    PassDescends(c1, id, spec, eff, ALL_WELL);
    OtherStaysPresent(c1, id, other, spec2, eff2);
    ZeroIffSettled(c1, id, spec, eff);
    ZeroIffSettled(c2, id, spec, eff);
    PlainIsAnswered(c2, other, spec2, eff2);
  }

  /** A pass over one application keeps what a plain other one needs. */
  lemma OtherStaysPresent(c: Cluster, id: Id, other: Id, spec2: AppSpec, eff2: Effective)
    requires id != other && Present(c, other, spec2, eff2) && IsPlain(spec2)
    ensures var c' := ApplicationPass(c, id, ALL_WELL); c'.world == c.world && Present(c', other, spec2, eff2)
  {
    if id in c.apps { OtherPassTouches(c, id, ALL_WELL); }
    hide Resolve, Gated, AsksFor, KeepsWorkflow, Argo;
  }

  /** Both applications are put, and the first is reconciled twice. */
  function Meeting(id: Id, spec: AppSpec, other: Id, spec2: AppSpec): seq<Step> {
    [PutApp(id, spec)] + [PutApp(other, spec2)] + [ReconcileApp(id, ALL_WELL)] + [ReconcileApp(id, ALL_WELL)]
  }

  lemma MeetingRun(w: World, id: Id, spec: AppSpec, other: Id, spec2: AppSpec)
    ensures var c := Take(Take(Fresh(w), PutApp(id, spec)), PutApp(other, spec2));
            Run(Fresh(w), Meeting(id, spec, other, spec2)) == ApplicationPass(ApplicationPass(c, id, ALL_WELL), id, ALL_WELL)
  {
    hide ApplicationPass;
    var r := ReconcileApp(id, ALL_WELL);
    assert [] + [PutApp(id, spec)] == [PutApp(id, spec)];
    RunOn(Fresh(w), [], PutApp(id, spec));
    RunOn(Fresh(w), [PutApp(id, spec)], PutApp(other, spec2));
    RunOn(Fresh(w), [PutApp(id, spec)] + [PutApp(other, spec2)], r);
    RunOn(Fresh(w), [PutApp(id, spec)] + [PutApp(other, spec2)] + [r], r);
  }

  lemma {:induction false} RunOn(c: Cluster, steps: seq<Step>, s: Step)
    ensures Run(c, steps + [s]) == Take(Run(c, steps), s)
    decreases |steps|
  {
    hide Take;
    if steps == [] {
      assert (steps + [s])[1..] == [];
    } else {
      assert (steps + [s])[1..] == steps[1..] + [s];
      RunOn(Take(c, steps[0]), steps[1..], s);
    }
  }

  /** There the first one is finished, and the second about to deploy. */
  lemma MeetingIs(w: World, id: Id, spec: AppSpec, eff: Effective, other: Id, spec2: AppSpec, eff2: Effective)
    requires Placed(w, id, spec, eff, other, spec2, eff2) && IsPlain(spec) && IsPlain(spec2)
    ensures var c := Run(Fresh(w), Meeting(id, spec, other, spec2));
            && Both(c, w, id, eff, other, eff2) && c.apps[id].spec == spec
            && Settled(c, id, spec, eff) && AboutToDeploy(c, other, spec2, eff2)
  {
    hide Resolve, Settled, AboutToDeploy, Run, ApplicationPass, Meeting, Take, IsPlain, Usable;
    MeetingRun(w, id, spec, other, spec2);
    BothArrive(w, id, spec, eff, other, spec2, eff2);
    PlainSettles(Take(Take(Fresh(w), PutApp(id, spec)), PutApp(other, spec2)), id, spec, eff, other, spec2, eff2);
  }

  lemma BothArrive(w: World, id: Id, spec: AppSpec, eff: Effective, other: Id, spec2: AppSpec, eff2: Effective)
    requires Placed(w, id, spec, eff, other, spec2, eff2) && IsPlain(spec) && IsPlain(spec2)
    ensures var c := Take(Take(Fresh(w), PutApp(id, spec)), PutApp(other, spec2));
            c.world == w && Present(c, id, spec, eff) && Present(c, other, spec2, eff2)
  {
    hide Resolve, ConnectionOf, BuildBlocked, Restorable, ApplicationPass, SnapshotPass, FinalizeApp, FinalizeSnapshot, Report;
  }

  /** Not apart, the second one's pass undoes the first one. */
  lemma MeetingUndoes(w: World, id: Id, spec: AppSpec, eff: Effective, other: Id, spec2: AppSpec, eff2: Effective)
    requires Placed(w, id, spec, eff, other, spec2, eff2) && !Apart(w, eff, eff2)
    ensures !NeverDisturbs(w, id, eff, other, eff2) && !NeverUndoes(w, id, eff, other, eff2)
  {
    var x, y := Plain(spec, "x"), Plain(spec2, "y");
    PlainResolves(w, id, spec, "x");
    PlainResolves(w, other, spec2, "y");
    assert x.settings != y.settings && IsPlain(x) && IsPlain(y);
    var steps := Meeting(id, x, other, y);
    var c := Run(Fresh(w), steps);
    assert !(ArgoAgrees(w, id, x, eff, other, y, eff2) && SecretsAgree(w, eff, eff2)) by {
      hide Argo, SecretsAgree, DesiredImage, ResolveOidc, DeliveredSecret;
    }
    assert Gentle(ALL_WELL);
    hide Resolve, Argo, ArgoAgrees, SecretsAgree, Settled, Undisturbed, AboutToDeploy, ApplicationPass, Run, Meeting, Plain, IsPlain,
      Gentle;
    MeetingIs(w, id, x, eff, other, y, eff2);
    NeighbourIff(c, id, x, eff, other, y, eff2, ALL_WELL);
    hide Both;
    assert !Undisturbed(c, ApplicationPass(c, other, ALL_WELL), id, c.apps[id].spec, eff);
    assert !Settled(ApplicationPass(c, other, ALL_WELL), id, c.apps[id].spec, eff);
  }

  /** Over all runs, and with whatever specs, no pass over one application disturbs another one, if and only if they have two
      Argo CD Applications, and two ExternalSecrets or one with the same paths; and exactly then none undoes a finished one. */
  lemma NeverDisturbsIff(w: World, id: Id, spec: AppSpec, eff: Effective, other: Id, spec2: AppSpec, eff2: Effective)
    requires Placed(w, id, spec, eff, other, spec2, eff2)
    ensures NeverDisturbs(w, id, eff, other, eff2) <==> Apart(w, eff, eff2)
    ensures NeverUndoes(w, id, eff, other, eff2) <==> Apart(w, eff, eff2)
  {
    hide Resolve, Apart, Undisturbed, ApplicationPass, Run, Settled, Gentle;
    if Apart(w, eff, eff2) {
      forall w0, steps, o | Gentle(o) && Both(Run(Fresh(w0), steps), w, id, eff, other, eff2)
        ensures var c := Run(Fresh(w0), steps);
                && Undisturbed(c, ApplicationPass(c, other, o), id, c.apps[id].spec, eff)
                && (Settled(c, id, c.apps[id].spec, eff) ==> Settled(ApplicationPass(c, other, o), id, c.apps[id].spec, eff))
      {
        var c := Run(Fresh(w0), steps);
        ApartUndisturbed(c, id, eff, other, eff2, o);
        if Settled(c, id, c.apps[id].spec, eff) { StillSettled(c, ApplicationPass(c, other, o), id, c.apps[id].spec, eff); }
      }
    } else {
      MeetingUndoes(w, id, spec, eff, other, spec2, eff2);
    }
  }
}
