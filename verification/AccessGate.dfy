/** The access gate of an application: one group whose members get through while it is bound. Membership and bindings
    change in separate remote calls, any of which can be the last one that goes through. */
module AccessGate {
  import Names

  datatype Group = Group(pk: nat, members: set<int>)

  datatype Binding = Binding(pk: nat, target: nat, group: nat)

  /** Authentik: groups by name, registered applications by slug, and policy bindings. */
  datatype State = State(groups: map<string, Group>, applications: map<string, nat>, bindings: seq<Binding>, next: nat)

  /** A request either goes on, with the number of changing calls that will still be answered, or has stopped. */
  datatype Progress = Going(state: State, calls: nat) | Stopped(state: State)

  // ---- single calls ----

  /** One changing call: it goes through while calls are answered, and changes nothing otherwise. */
  function Call(s: State, calls: nat, after: State): Progress {
    if calls == 0 then Stopped(s) else Going(after, calls - 1)
  }

  function WithGroup(s: State, name: string): State {
    s.(groups := s.groups[name := Group(s.next, {})], next := s.next + 1)
  }

  function WithMembers(s: State, name: string, members: set<int>): State
    requires name in s.groups
  {
    s.(groups := s.groups[name := s.groups[name].(members := members)])
  }

  predicate Bound(s: State, app: nat, group: nat) {
    exists b :: b in s.bindings && b.target == app && b.group == group
  }

  function WithBinding(s: State, app: nat, group: nat): State {
    s.(bindings := s.bindings + [Binding(s.next, app, group)], next := s.next + 1)
  }

  function Dropped(bindings: seq<Binding>, pk: nat): seq<Binding> {
    if bindings == [] then []
    else
      var last := bindings[|bindings| - 1];
      Dropped(bindings[..|bindings| - 1], pk) + if last.pk == pk then [] else [last]
  }

  /** The bindings of the group on the application. */
  function BindingsOf(bindings: seq<Binding>, app: nat, group: nat): seq<nat> {
    if bindings == [] then []
    else
      var last := bindings[|bindings| - 1];
      BindingsOf(bindings[..|bindings| - 1], app, group)
      + if last.target == app && last.group == group then [last.pk] else []
  }

  // ---- the two requests ----

  /** `[a for a in map(application_by_slug, slugs) if a]` */
  function Registered(s: State, slugs: seq<string>): seq<nat> {
    if slugs == [] then []
    else (if slugs[0] in s.applications then [s.applications[slugs[0]]] else []) + Registered(s, slugs[1..])
  }

  function EnsureGroup(s: State, name: string, calls: nat): Progress {
    if name in s.groups then Going(s, calls) else Call(s, calls, WithGroup(s, name))
  }

  /** `ensure_binding` for each application in turn. */
  function BindAll(s: State, apps: seq<nat>, group: nat, calls: nat): Progress
    decreases |apps|
  {
    if |apps| == 0 then Going(s, calls)
    else if Bound(s, apps[0], group) then BindAll(s, apps[1..], group, calls)
    else if calls == 0 then Stopped(s)
    else BindAll(WithBinding(s, apps[0], group), apps[1..], group, calls - 1)
  }

  function DeleteEach(s: State, pks: seq<nat>, calls: nat): Progress
    decreases |pks|
  {
    if |pks| == 0 then Going(s, calls)
    else if calls == 0 then Stopped(s)
    else DeleteEach(s.(bindings := Dropped(s.bindings, pks[0])), pks[1..], calls - 1)
  }

  /** `remove_binding` for each application in turn. */
  function UnbindAll(s: State, apps: seq<nat>, group: nat, calls: nat): Progress
    decreases |apps|
  {
    if |apps| == 0 then Going(s, calls)
    else
      var p := DeleteEach(s, BindingsOf(s.bindings, apps[0], group), calls);
      if p.Stopped? then p else UnbindAll(p.state, apps[1..], group, p.calls)
  }

  /** Membership first, then the bindings. */
  function AddAndBind(s: State, name: string, apps: seq<nat>, user: int, calls: nat): Progress
    requires name in s.groups
  {
    var p := Call(s, calls, WithMembers(s, name, s.groups[name].members + {user}));
    if p.Stopped? then p else BindAll(p.state, apps, s.groups[name].pk, p.calls)
  }

  function Grant(s: State, name: string, slugs: seq<string>, user: int, calls: nat): Progress {
    var apps := Registered(s, slugs);
    if apps == [] then Going(s, calls)
    else
      var p := EnsureGroup(s, name, calls);
      if p.Stopped? then p else AddAndBind(p.state, name, apps, user, p.calls)
  }

  /** The last member's removal drops the gate. */
  function Revoke(s: State, name: string, slugs: seq<string>, user: int, calls: nat): Progress {
    if name !in s.groups then Going(s, calls)
    else
      var left := s.groups[name].members - {user};
      var p := Call(s, calls, WithMembers(s, name, left));
      if p.Stopped? || left != {} then p else UnbindAll(p.state, Registered(s, slugs), s.groups[name].pk, p.calls)
  }

  // ---- what must hold ----

  /** No two bindings have one key. */
  ghost predicate KeysDiffer(bindings: seq<Binding>) {
    forall i, j :: 0 <= i < j < |bindings| ==> bindings[i].pk != bindings[j].pk
  }

  /** Group keys and binding keys are unique, and nothing is numbered beyond `next`. */
  ghost predicate WellFormed(s: State) {
    && (forall m, n :: m in s.groups && n in s.groups && s.groups[m].pk == s.groups[n].pk ==> m == n)
    && (forall n :: n in s.groups ==> s.groups[n].pk < s.next)
    && BindingsOk(s)
  }

  /** Bindings are unique and within the numbering. */
  ghost predicate BindingsOk(s: State) {
    && (forall b :: b in s.bindings ==> b.group < s.next && b.pk < s.next)
    && KeysDiffer(s.bindings)
  }

  /** An application, as the paths of the API name it. */
  datatype App = App(client: string, environment: string, name: string) {
    /** The runtime namespace and the release. */
    function Release(): (string, string) {
      Names.ApiRelease(client, environment, name)
    }
  }

  function GroupName(prefix: string, app: App): string {
    prefix + app.Release().1
  }

  /** The gates of some applications: the prefix of group names, and the slugs of the SSO registrations in each runtime
      namespace under each release. These are fixed. */
  datatype Gates = Gates(prefix: string, sso: map<(string, string), seq<string>>, apps: set<App>) {
    function Group(app: App): string {
      GroupName(prefix, app)
    }

    function Slugs(app: App): seq<string> {
      if app.Release() in sso then sso[app.Release()] else []
    }
  }

  /** What the application has registered in Authentik. */
  function Targets(s: State, gates: Gates, app: App): seq<nat> {
    Registered(s, gates.Slugs(app))
  }

  /** The application's access group is bound to what the application itself has registered only. */
  ghost predicate Within(s: State, gates: Gates, app: App) {
    gates.Group(app) in s.groups ==>
      forall b :: b in s.bindings && b.group == s.groups[gates.Group(app)].pk ==> b.target in Targets(s, gates, app)
  }

  /** Everybody is locked out of the registration. */
  predicate LockedOut(s: State, name: string, target: nat) {
    name in s.groups && s.groups[name].members == {} && Bound(s, target, s.groups[name].pk)
  }

  ghost predicate Open(s: State, name: string) {
    forall target :: !LockedOut(s, name, target)
  }

  /** The gate is exactly as closed as the group says. */
  ghost predicate Exact(s: State, gates: Gates, app: App) {
    gates.Group(app) in s.groups ==>
      forall target :: target in Targets(s, gates, app) ==>
        (Bound(s, target, s.groups[gates.Group(app)].pk) <==> s.groups[gates.Group(app)].members != {})
  }

  /** Both applications have the same registrations. */
  ghost predicate Alike(s: State, gates: Gates, a: App, b: App) {
    forall target :: target in Targets(s, gates, a) <==> target in Targets(s, gates, b)
  }

  /** Applications with one access group have the same registrations. */
  ghost predicate GroupsTell(s: State, gates: Gates) {
    forall a, b :: a in gates.apps && b in gates.apps && gates.Group(a) == gates.Group(b) ==> Alike(s, gates, a, b)
  }

  // ---- bindings under the single calls ----

  /** The bindings of every other group, in order. */
  function Others(bindings: seq<Binding>, group: nat): seq<Binding> {
    if bindings == [] then []
    else
      var last := bindings[|bindings| - 1];
      Others(bindings[..|bindings| - 1], group) + if last.group == group then [] else [last]
  }

  /** From `s` to `s'` only bindings of one group differ. */
  ghost predicate OnlyBindingsOf(s: State, s': State, group: nat) {
    && s'.groups == s.groups && s'.applications == s.applications && s'.next >= s.next
    && Others(s'.bindings, group) == Others(s.bindings, group)
  }

  lemma {:induction false} OthersAre(bindings: seq<Binding>, group: nat, b: Binding)
    ensures b in Others(bindings, group) <==> b in bindings && b.group != group
  {
    if bindings != [] { OthersAre(bindings[..|bindings| - 1], group, b); }
  }

  lemma {:induction false} DroppedIs(bindings: seq<Binding>, pk: nat, b: Binding)
    ensures b in Dropped(bindings, pk) <==> b in bindings && b.pk != pk
  {
    if bindings != [] { DroppedIs(bindings[..|bindings| - 1], pk, b); }
  }

  lemma {:induction false} DroppedOthers(bindings: seq<Binding>, pk: nat, group: nat)
    requires forall b :: b in bindings && b.pk == pk ==> b.group == group
    ensures Others(Dropped(bindings, pk), group) == Others(bindings, group)
  {
    if bindings != [] {
      var front, last := bindings[..|bindings| - 1], bindings[|bindings| - 1];
      DroppedOthers(front, pk, group);
      var d := Dropped(front, pk);
      if last.pk != pk {
        assert (d + [last])[..|d|] == d;
      } else {
        assert d + [] == d;
        assert Others(front, group) + [] == Others(front, group);
      }
    }
  }

  lemma {:induction false} BindingsOfAre(bindings: seq<Binding>, app: nat, group: nat, pk: nat)
    ensures pk in BindingsOf(bindings, app, group) <==> exists b :: b in bindings && b.pk == pk && b.target == app && b.group == group
  {
    if bindings != [] {
      var front, last := bindings[..|bindings| - 1], bindings[|bindings| - 1];
      BindingsOfAre(front, app, group, pk);
    }
  }

  lemma {:induction false} DroppedDiffer(bindings: seq<Binding>, pk: nat)
    requires KeysDiffer(bindings)
    ensures KeysDiffer(Dropped(bindings, pk))
  {
    if bindings != [] {
      var front, last := bindings[..|bindings| - 1], bindings[|bindings| - 1];
      DroppedDiffer(front, pk);
      forall b | b in Dropped(front, pk) ensures b.pk != last.pk { DroppedIs(front, pk, b); }
    }
  }

  lemma KeyTells(bindings: seq<Binding>, b: Binding, c: Binding)
    requires KeysDiffer(bindings) && b in bindings && c in bindings && b.pk == c.pk
    ensures b == c
  {
    var i :| 0 <= i < |bindings| && bindings[i] == b;
    var j :| 0 <= j < |bindings| && bindings[j] == c;
  }

  /** Deleting bindings of the group, as far as calls are answered. */
  lemma {:induction false} DeletesOnly(s: State, pks: seq<nat>, group: nat, calls: nat)
    requires forall b :: b in s.bindings && b.pk in pks ==> b.group == group
    ensures var p := DeleteEach(s, pks, calls);
            && OnlyBindingsOf(s, p.state, group) && p.state.next == s.next
            && (KeysDiffer(s.bindings) ==> KeysDiffer(p.state.bindings))
            && (forall b :: b in p.state.bindings ==> b in s.bindings)
            && (forall b :: b in s.bindings && b.pk !in pks ==> b in p.state.bindings)
            && (p.Going? ==> forall b :: b in p.state.bindings ==> b.pk !in pks)
    decreases |pks|
  {
    if |pks| > 0 && calls > 0 {
      var s1 := s.(bindings := Dropped(s.bindings, pks[0]));
      forall b ensures b in s1.bindings <==> b in s.bindings && b.pk != pks[0] {
        DroppedIs(s.bindings, pks[0], b);
      }
      DroppedOthers(s.bindings, pks[0], group);
      if KeysDiffer(s.bindings) { DroppedDiffer(s.bindings, pks[0]); }
      DeletesOnly(s1, pks[1..], group, calls - 1);
      assert forall k :: k in pks <==> k == pks[0] || k in pks[1..];
    }
  }

  lemma {:induction false} UnbindsOnly(s: State, apps: seq<nat>, group: nat, calls: nat)
    requires KeysDiffer(s.bindings)
    ensures var p := UnbindAll(s, apps, group, calls);
            && OnlyBindingsOf(s, p.state, group) && p.state.next == s.next && KeysDiffer(p.state.bindings)
            && (forall b :: b in p.state.bindings ==> b in s.bindings)
            && (p.Going? ==> forall b :: b in p.state.bindings && b.group == group ==> b.target !in apps)
    decreases |apps|
  {
    if |apps| > 0 {
      var pks := BindingsOf(s.bindings, apps[0], group);
      forall pk ensures pk in pks <==> exists b :: b in s.bindings && b.pk == pk && b.target == apps[0] && b.group == group {
        BindingsOfAre(s.bindings, apps[0], group, pk);
      }
      forall b | b in s.bindings && b.pk in pks ensures b.group == group {
        var c :| c in s.bindings && c.pk == b.pk && c.target == apps[0] && c.group == group;
        KeyTells(s.bindings, b, c);
      }
      DeletesOnly(s, pks, group, calls);
      var p := DeleteEach(s, pks, calls);
      if p.Going? {
        UnbindsOnly(p.state, apps[1..], group, p.calls);
        assert forall a :: a in apps <==> a == apps[0] || a in apps[1..];
      }
    }
  }

  lemma StillOk(s: State, app: nat, group: nat)
    requires BindingsOk(s) && group < s.next
    ensures BindingsOk(WithBinding(s, app, group))
  {
    assert forall i :: 0 <= i < |s.bindings| ==> s.bindings[i] in s.bindings;
  }

  lemma OneMoreBinding(s: State, app: nat, group: nat)
    ensures OnlyBindingsOf(s, WithBinding(s, app, group), group)
    ensures forall b :: b in WithBinding(s, app, group).bindings <==> b in s.bindings || b == Binding(s.next, app, group)
  {
    var after := WithBinding(s, app, group).bindings;
    assert after[..|after| - 1] == s.bindings;
    assert Others(s.bindings, group) + [] == Others(s.bindings, group);
  }

  lemma {:induction false} BindsOnly(s: State, apps: seq<nat>, group: nat, calls: nat)
    requires BindingsOk(s) && group < s.next
    ensures var p := BindAll(s, apps, group, calls);
            && OnlyBindingsOf(s, p.state, group) && BindingsOk(p.state)
            && (forall b :: b in s.bindings ==> b in p.state.bindings)
            && (forall b :: b in p.state.bindings ==> b in s.bindings || (b.group == group && b.target in apps))
            && (p.Going? ==> forall app :: app in apps ==> Bound(p.state, app, group))
    decreases |apps|
  {
    if |apps| > 0 {
      assert forall a :: a in apps <==> a == apps[0] || a in apps[1..];
      if Bound(s, apps[0], group) {
        BindsOnly(s, apps[1..], group, calls);
      } else if calls > 0 {
        OneMoreBinding(s, apps[0], group);
        StillOk(s, apps[0], group);
        hide BindingsOk;
        var s1 := WithBinding(s, apps[0], group);
        assert Binding(s.next, apps[0], group) in s1.bindings;
        BindsOnly(s1, apps[1..], group, calls - 1);
      }
    }
  }

  // ---- a request seen from its own gate and from the others ----

  /** The request leaves every other group, and the bindings of every other group, as they are. */
  ghost predicate OthersUntouched(s: State, s': State, name: string) {
    && s'.applications == s.applications
    && (forall n :: n in s.groups && n != name ==> n in s'.groups && s'.groups[n] == s.groups[n])
    && (forall n :: n in s'.groups && n != name ==> n in s.groups)
    && (name in s.groups ==> name in s'.groups && s'.groups[name].pk == s.groups[name].pk)
    && (name in s'.groups ==> Others(s'.bindings, s'.groups[name].pk) == Others(s.bindings, s'.groups[name].pk))
    && (name !in s'.groups ==> s'.bindings == s.bindings)
  }

  lemma SameRegistered(s: State, s': State, slugs: seq<string>)
    requires s'.applications == s.applications
    ensures Registered(s', slugs) == Registered(s, slugs)
    decreases |slugs|
  {
    if slugs != [] { SameRegistered(s, s', slugs[1..]); }
  }

  /** What a grant can have done when it ends or stops: nobody loses access through it, and there is no new binding
      without a member. */
  ghost predicate Granted(s: State, s': State, name: string, slugs: seq<string>) {
    && OthersUntouched(s, s', name) && WellFormed(s')
    && (forall b :: b in s.bindings ==> b in s'.bindings)
    && (name !in s'.groups ==> s'.bindings == s.bindings)
    && (name in s'.groups ==>
          && (name in s.groups ==> s.groups[name].members <= s'.groups[name].members)
          && (name !in s.groups ==> forall b :: b in s.bindings ==> b.group != s'.groups[name].pk)
          && (s'.groups[name].members == {} ==> s'.bindings == s.bindings)
          && forall b :: b in s'.bindings ==>
               b in s.bindings || (b.group == s'.groups[name].pk && b.target in Registered(s, slugs)))
  }

  lemma NothingToBind(s: State, name: string)
    requires WellFormed(s)
    ensures OthersUntouched(s, s, name)
  {
  }

  lemma AddAndBindGrants(s: State, name: string, slugs: seq<string>, user: int, calls: nat)
    requires WellFormed(s) && name in s.groups
    ensures var p := AddAndBind(s, name, Registered(s, slugs), user, calls);
            && Granted(s, p.state, name, slugs) && name in p.state.groups
            && (p.Going? ==> p.state.groups[name].members != {}
                             && forall app :: app in Registered(s, slugs) ==> Bound(p.state, app, p.state.groups[name].pk))
  {
    hide Registered, Others, BindAll;
    var group := s.groups[name];
    NothingToBind(s, name);
    var s1 := WithMembers(s, name, group.members + {user});
    if calls > 0 {
      BindsOnly(s1, Registered(s, slugs), group.pk, calls - 1);
    }
  }

  lemma GrantEffect(s: State, name: string, slugs: seq<string>, user: int, calls: nat)
    requires WellFormed(s)
    ensures var p := Grant(s, name, slugs, user, calls);
            && Granted(s, p.state, name, slugs)
            && (p.Going? && Registered(s, slugs) != [] ==>
                  && name in p.state.groups && p.state.groups[name].members != {}
                  && forall app :: app in Registered(s, slugs) ==> Bound(p.state, app, p.state.groups[name].pk))
            && (Registered(s, slugs) == [] ==> p.state == s)
  {
    hide Registered, AddAndBind, Bound;
    if Registered(s, slugs) != [] {
      var p := EnsureGroup(s, name, calls);
      if p.Going? {
        SameRegistered(s, p.state, slugs);
        EnsuredWellFormed(s, name, calls);
        AddAndBindGrants(p.state, name, slugs, user, p.calls);
        EnsuredGrants(s, p.state, AddAndBind(p.state, name, Registered(s, slugs), user, p.calls).state, name, slugs);
      }
    }
  }

  lemma EnsuredWellFormed(s: State, name: string, calls: nat)
    requires WellFormed(s)
    ensures WellFormed(EnsureGroup(s, name, calls).state)
  {
  }

  lemma EnsuredGrants(s: State, s1: State, s': State, name: string, slugs: seq<string>)
    requires WellFormed(s) && (s1 == s || (name !in s.groups && s1 == WithGroup(s, name))) && Registered(s1, slugs) == Registered(s, slugs)
    requires Granted(s1, s', name, slugs) && name in s1.groups
    ensures Granted(s, s', name, slugs)
  {
    hide Registered, Others;
  }

  /** What a revoke can have done: it takes one member out, and takes bindings away only when nobody is left. */
  ghost predicate Revoked(s: State, s': State, name: string, user: int) {
    && OthersUntouched(s, s', name) && WellFormed(s') && (name in s'.groups <==> name in s.groups)
    && (forall b :: b in s'.bindings ==> b in s.bindings)
    && (name in s.groups ==> s'.groups[name].members in {s.groups[name].members, s.groups[name].members - {user}})
    && (name in s.groups && s.groups[name].members - {user} != {} ==> s'.bindings == s.bindings)
  }

  /** The revoke that takes the last member. */
  lemma RevokesLast(s: State, name: string, apps: seq<nat>, user: int, calls: nat)
    requires WellFormed(s) && name in s.groups && s.groups[name].members - {user} == {}
    ensures var p := UnbindAll(WithMembers(s, name, {}), apps, s.groups[name].pk, calls);
            && Revoked(s, p.state, name, user) && name in p.state.groups && p.state.groups[name].members == {}
            && (p.Going? ==> forall b :: b in p.state.bindings && b.group == s.groups[name].pk ==> b.target !in apps)
  {
    hide Others, DeleteEach, UnbindAll;
    UnbindsOnly(WithMembers(s, name, {}), apps, s.groups[name].pk, calls);
  }

  /** The revoke that leaves members, or does nothing. */
  lemma RevokesOne(s: State, name: string, user: int)
    requires WellFormed(s)
    ensures Revoked(s, s, name, user)
    ensures name in s.groups && s.groups[name].members - {user} != {} ==>
              Revoked(s, WithMembers(s, name, s.groups[name].members - {user}), name, user)
  {
    hide Others;
  }

  lemma RevokeEffect(s: State, name: string, slugs: seq<string>, user: int, calls: nat)
    requires WellFormed(s)
    ensures var p := Revoke(s, name, slugs, user, calls);
            && Revoked(s, p.state, name, user)
            && (p.Going? && name in s.groups ==>
                  && name in p.state.groups && p.state.groups[name].members == s.groups[name].members - {user}
                  && (s.groups[name].members - {user} == {} ==>
                        forall b :: b in p.state.bindings && b.group == s.groups[name].pk ==> b.target !in Registered(s, slugs)))
  {
    hide Registered, UnbindAll, Revoked, WellFormed;
    RevokesOne(s, name, user);
    if name in s.groups && calls > 0 && s.groups[name].members - {user} == {} {
      SameRegistered(s, WithMembers(s, name, {}), slugs);
      RevokesLast(s, name, Registered(s, slugs), user, calls - 1);
    }
  }

  lemma BoundElsewhere(s: State, s': State, name: string, n: string, app: nat)
    requires OthersUntouched(s, s', name) && WellFormed(s) && WellFormed(s') && n != name && n in s.groups
    ensures Bound(s', app, s.groups[n].pk) <==> Bound(s, app, s.groups[n].pk)
    ensures forall b: Binding :: b.group == s.groups[n].pk ==> (b in s'.bindings <==> b in s.bindings)
  {
    if name in s'.groups {
      forall b: Binding | b.group == s.groups[n].pk ensures b in s'.bindings <==> b in s.bindings {
        OthersAre(s.bindings, s'.groups[name].pk, b);
        OthersAre(s'.bindings, s'.groups[name].pk, b);
      }
    }
  }

  // ---- when a revoke stops, and whom it locks out ----

  /** The keys of the group's bindings on these registrations. */
  function KeysOn(s: State, apps: seq<nat>, group: nat): set<nat> {
    set b | b in s.bindings && b.group == group && b.target in apps :: b.pk
  }

  predicate NoneTwice(pks: seq<nat>) {
    forall i, j :: 0 <= i < j < |pks| ==> pks[i] != pks[j]
  }

  lemma {:induction false} BindingsOfOnce(bindings: seq<Binding>, app: nat, group: nat)
    requires KeysDiffer(bindings)
    ensures NoneTwice(BindingsOf(bindings, app, group))
  {
    if bindings != [] {
      var front, last := bindings[..|bindings| - 1], bindings[|bindings| - 1];
      BindingsOfOnce(front, app, group);
      BindingsOfAre(front, app, group, last.pk);
      assert last.pk !in BindingsOf(front, app, group);
    }
  }

  function Elements(pks: seq<nat>): set<nat> {
    set k | k in pks
  }

  lemma {:induction false} SizeOfKeys(pks: seq<nat>)
    requires NoneTwice(pks)
    ensures |Elements(pks)| == |pks|
  {
    if pks != [] {
      var front, last := pks[..|pks| - 1], pks[|pks| - 1];
      SizeOfKeys(front);
      OneMoreElement(front, last);
      assert pks == front + [last] && last !in front;
    }
  }

  lemma OneMoreElement(front: seq<nat>, last: nat)
    ensures Elements(front + [last]) == Elements(front) + {last}
  {
  }

  /** A deletion stops for want of calls, and then one of the bindings is still there. */
  lemma {:induction false} DeletionStops(s: State, pks: seq<nat>, calls: nat)
    requires KeysDiffer(s.bindings) && NoneTwice(pks) && forall k :: k in pks ==> exists b :: b in s.bindings && b.pk == k
    ensures var p := DeleteEach(s, pks, calls);
            && (p.Stopped? <==> calls < |pks|)
            && (p.Going? ==> p.calls == calls - |pks|)
            && (p.Stopped? ==> exists b :: b in p.state.bindings && b in s.bindings && b.pk in pks)
    decreases |pks|
  {
    if |pks| > 0 {
      if calls == 0 {
        assert pks[0] in pks;
      } else {
        var s1 := s.(bindings := Dropped(s.bindings, pks[0]));
        DroppedDiffer(s.bindings, pks[0]);
        forall b ensures b in s1.bindings <==> b in s.bindings && b.pk != pks[0] { DroppedIs(s.bindings, pks[0], b); }
        forall k | k in pks[1..] ensures exists b :: b in s1.bindings && b.pk == k {
          assert k in pks && k != pks[0];
          var b :| b in s.bindings && b.pk == k;
          assert b in s1.bindings;
        }
        DeletionStops(s1, pks[1..], calls - 1);
      }
    }
  }

  lemma KeyOnFirst(s: State, s': State, apps: seq<nat>, group: nat, k: nat)
    requires apps != []
    requires forall b :: b in s'.bindings <==> b in s.bindings && b.pk !in BindingsOf(s.bindings, apps[0], group)
    ensures k in KeysOn(s, apps, group) <==> k in BindingsOf(s.bindings, apps[0], group) || k in KeysOn(s', apps[1..], group)
    ensures !(k in BindingsOf(s.bindings, apps[0], group) && k in KeysOn(s', apps[1..], group))
  {
    BindingsOfAre(s.bindings, apps[0], group, k);
    var pks := BindingsOf(s.bindings, apps[0], group);
    hide BindingsOf;
    assert forall a :: a in apps <==> a == apps[0] || a in apps[1..];
    if k in KeysOn(s, apps, group) && k !in pks {
      var b :| b in s.bindings && b.group == group && b.target in apps && b.pk == k;
      assert b in s'.bindings;
    }
  }

  lemma KeysSplit(s: State, s': State, apps: seq<nat>, group: nat)
    requires KeysDiffer(s.bindings) && apps != []
    requires forall b :: b in s'.bindings <==> b in s.bindings && b.pk !in BindingsOf(s.bindings, apps[0], group)
    ensures |KeysOn(s, apps, group)| == |BindingsOf(s.bindings, apps[0], group)| + |KeysOn(s', apps[1..], group)|
  {
    var pks := BindingsOf(s.bindings, apps[0], group);
    BindingsOfOnce(s.bindings, apps[0], group);
    SizeOfKeys(pks);
    forall k
      ensures k in KeysOn(s, apps, group) <==> k in Elements(pks) || k in KeysOn(s', apps[1..], group)
      ensures !(k in Elements(pks) && k in KeysOn(s', apps[1..], group))
    {
      KeyOnFirst(s, s', apps, group, k);
    }
    hide BindingsOf, KeysOn, Elements, KeysDiffer, NoneTwice;
    assert Elements(pks) !! KeysOn(s', apps[1..], group);
    assert KeysOn(s, apps, group) == Elements(pks) + KeysOn(s', apps[1..], group);
  }

  /** Taking the gate away stops for want of calls, and then a binding is left. */
  lemma {:induction false} UnbindingStops(s: State, apps: seq<nat>, group: nat, calls: nat)
    requires KeysDiffer(s.bindings)
    ensures var p := UnbindAll(s, apps, group, calls);
            && (p.Stopped? <==> calls < |KeysOn(s, apps, group)|)
            && (p.Stopped? ==> exists b :: b in p.state.bindings && b.group == group)
    decreases |apps|
  {
    if |apps| == 0 {
      assert KeysOn(s, apps, group) == {};
    } else {
      var pks := BindingsOf(s.bindings, apps[0], group);
      forall k ensures k in pks <==> exists b :: b in s.bindings && b.pk == k && b.target == apps[0] && b.group == group {
        BindingsOfAre(s.bindings, apps[0], group, k);
      }
      forall b | b in s.bindings && b.pk in pks ensures b.group == group {
        var c :| c in s.bindings && c.pk == b.pk && c.target == apps[0] && c.group == group;
        KeyTells(s.bindings, b, c);
      }
      BindingsOfOnce(s.bindings, apps[0], group);
      DeletionStops(s, pks, calls);
      DeletesOnly(s, pks, group, calls);
      var p := DeleteEach(s, pks, calls);
      var all := s.(bindings := DeleteEach(s, pks, |pks|).state.bindings);
      DeletionStops(s, pks, |pks|);
      DeletesOnly(s, pks, group, |pks|);
      KeysSplit(s, all, apps, group);
      if p.Going? {
        KeysSplit(s, p.state, apps, group);
        UnbindingStops(p.state, apps[1..], group, p.calls);
      }
    }
  }

  lemma SameKeys(s: State, s': State, targets: seq<nat>, group: nat)
    requires s'.bindings == s.bindings
    ensures KeysOn(s', targets, group) == KeysOn(s, targets, group)
  {
  }

  /** A revoke stops exactly when not even its first call is answered, or when it takes the last member and fewer calls are
      answered than that one and one for each binding of the group on the application's registrations. */
  lemma RevokeStopsIff(s: State, name: string, slugs: seq<string>, user: int, calls: nat)
    requires WellFormed(s) && name in s.groups
    ensures Revoke(s, name, slugs, user, calls).Stopped?
            <==> calls == 0 || (s.groups[name].members - {user} == {}
                                && calls < 1 + |KeysOn(s, Registered(s, slugs), s.groups[name].pk)|)
  {
    hide Registered, UnbindAll, KeysOn;
    var emptied := WithMembers(s, name, {});
    SameRegistered(s, emptied, slugs);
    if calls > 0 {
      UnbindingStops(emptied, Registered(s, slugs), s.groups[name].pk, calls - 1);
      SameKeys(s, emptied, Registered(s, slugs), s.groups[name].pk);
    }
  }

  /** Bindings on anything but these registrations stay. */
  lemma {:induction false} UnbindKeeps(s: State, targets: seq<nat>, group: nat, calls: nat, b: Binding)
    requires KeysDiffer(s.bindings) && b in s.bindings && b.target !in targets
    ensures b in UnbindAll(s, targets, group, calls).state.bindings
    decreases |targets|
  {
    if |targets| > 0 {
      var pks := BindingsOf(s.bindings, targets[0], group);
      OwnKeys(s, targets[0], group);
      BindingsOfAre(s.bindings, targets[0], group, b.pk);
      if b.pk in pks {
        var c :| c in s.bindings && c.pk == b.pk && c.target == targets[0] && c.group == group;
        KeyTells(s.bindings, b, c);
      }
      DeletesOnly(s, pks, group, calls);
      var p := DeleteEach(s, pks, calls);
      if p.Going? {
        assert forall t :: t in targets[1..] ==> t in targets;
        UnbindKeeps(p.state, targets[1..], group, p.calls, b);
      }
    }
  }

  lemma OwnKeys(s: State, target: nat, group: nat)
    requires KeysDiffer(s.bindings)
    ensures forall b :: b in s.bindings && b.pk in BindingsOf(s.bindings, target, group) ==> b.group == group
  {
    forall b | b in s.bindings && b.pk in BindingsOf(s.bindings, target, group) ensures b.group == group {
      BindingsOfAre(s.bindings, target, group, b.pk);
      var c :| c in s.bindings && c.pk == b.pk && c.target == target && c.group == group;
      KeyTells(s.bindings, b, c);
    }
  }

  /** The group has a binding on a registration that is not one of these. */
  ghost predicate BoundBeyond(s: State, group: nat, targets: seq<nat>) {
    exists b :: b in s.bindings && b.group == group && b.target !in targets
  }

  ghost predicate GroupIsBound(s: State, group: nat) {
    exists b :: b in s.bindings && b.group == group
  }

  /** What taking the gate away leaves bound. */
  lemma UnbindLeaves(s: State, targets: seq<nat>, group: nat, calls: nat)
    requires KeysDiffer(s.bindings)
    ensures var p := UnbindAll(s, targets, group, calls);
            GroupIsBound(p.state, group) <==> p.Stopped? || BoundBeyond(s, group, targets)
  {
    hide UnbindAll, KeysOn, KeysDiffer, Others;
    UnbindsOnly(s, targets, group, calls);
    UnbindingStops(s, targets, group, calls);
    if BoundBeyond(s, group, targets) {
      var b :| b in s.bindings && b.group == group && b.target !in targets;
      UnbindKeeps(s, targets, group, calls, b);
    }
  }

  /** What the revoke of the last member leaves bound. */
  lemma LastRevokeLeaves(s: State, name: string, slugs: seq<string>, user: int, calls: nat)
    requires WellFormed(s) && name in s.groups && s.groups[name].members - {user} == {} && calls > 0
    ensures var p := Revoke(s, name, slugs, user, calls);
            && name in p.state.groups && p.state.groups[name] == Group(s.groups[name].pk, {})
            && (GroupIsBound(p.state, s.groups[name].pk) <==>
                  p.Stopped? || BoundBeyond(s, s.groups[name].pk, Registered(s, slugs)))
  {
    var emptied, targets, group := WithMembers(s, name, {}), Registered(s, slugs), s.groups[name].pk;
    SameRegistered(s, emptied, slugs);
    assert Revoke(s, name, slugs, user, calls) == UnbindAll(emptied, targets, group, calls - 1);
    hide Revoke, Registered, UnbindAll, GroupIsBound, Others;
    UnbindLeaves(emptied, targets, group, calls - 1);
    UnbindsOnly(emptied, targets, group, calls - 1);
  }

  lemma LockedIff(s: State, name: string)
    requires name in s.groups
    ensures !Open(s, name) <==> s.groups[name].members == {} && GroupIsBound(s, s.groups[name].pk)
  {
    if s.groups[name].members == {} {
      forall b | b in s.bindings && b.group == s.groups[name].pk ensures LockedOut(s, name, b.target) {}
    }
  }

  /** A revoke through one application locks everybody out of an open gate exactly when it takes the last member and then
      leaves a binding of the group: because its calls run out (at least one is answered, and no more than there are bindings
      on the application's registrations), or because the group is bound beyond these. */
  lemma RevokeLocksIff(s: State, name: string, slugs: seq<string>, user: int, calls: nat)
    requires WellFormed(s) && name in s.groups && Open(s, name)
    ensures !Open(Revoke(s, name, slugs, user, calls).state, name)
            <==> && s.groups[name].members == {user} && calls > 0
                 && (calls <= |KeysOn(s, Registered(s, slugs), s.groups[name].pk)|
                     || BoundBeyond(s, s.groups[name].pk, Registered(s, slugs)))
  {
    var p, group := Revoke(s, name, slugs, user, calls), s.groups[name];
    RevokeStopsIff(s, name, slugs, user, calls);
    RevokeEffect(s, name, slugs, user, calls);
    LockedIff(s, name);
    LockedIff(p.state, name);
    if calls > 0 && group.members - {user} == {} {
      LastRevokeLeaves(s, name, slugs, user, calls);
      hide Revoke, Registered, KeysOn, Open, WellFormed, BoundBeyond;
      if group.members == {} {
        NoneBeyond(s, group.pk, Registered(s, slugs));
        assert p.Going?;
      }
    }
    hide Revoke, Registered, KeysOn, Open, WellFormed, BoundBeyond, Others;
  }

  lemma NoneBeyond(s: State, group: nat, targets: seq<nat>)
    requires !GroupIsBound(s, group)
    ensures !BoundBeyond(s, group, targets) && KeysOn(s, targets, group) == {}
  {
  }

  /** A completed revoke opens its gate, from any state, exactly when members are left or the group is bound to nothing
      beyond the registrations of the application; and it closes no other gate. */
  lemma CompletedRevokeOpensIff(s: State, name: string, slugs: seq<string>, user: int, calls: nat)
    requires WellFormed(s) && name in s.groups && Revoke(s, name, slugs, user, calls).Going?
    ensures var s' := Revoke(s, name, slugs, user, calls).state;
            && (Open(s', name) <==> s.groups[name].members - {user} != {}
                                    || !BoundBeyond(s, s.groups[name].pk, Registered(s, slugs)))
            && forall n :: n != name ==> (Open(s', n) <==> Open(s, n))
  {
    var s' := Revoke(s, name, slugs, user, calls).state;
    RevokeStopsIff(s, name, slugs, user, calls);
    RevokeEffect(s, name, slugs, user, calls);
    LockedIff(s', name);
    if s.groups[name].members - {user} == {} { LastRevokeLeaves(s, name, slugs, user, calls); }
    hide Revoke, Registered, KeysOn, WellFormed, BoundBeyond, Others, Open;
    forall n | n != name ensures Open(s', n) <==> Open(s, n) { OpenElsewhere(s, s', name, n); }
  }

  lemma OpenElsewhere(s: State, s': State, name: string, n: string)
    requires OthersUntouched(s, s', name) && WellFormed(s) && WellFormed(s') && n != name
    ensures Open(s', n) <==> Open(s, n)
  {
    hide Bound, Others, WellFormed;
    forall target ensures LockedOut(s', n, target) <==> LockedOut(s, n, target) {
      if n in s.groups { BoundElsewhere(s, s', name, n, target); }
    }
  }

  // ---- runs ----

  datatype Request =
    | Grants(app: App, user: int, calls: nat)
    | Revokes(app: App, user: int, calls: nat)

  /** The request, with the group and the slugs that the application's path leads to. */
  function Serve(s: State, gates: Gates, r: Request): Progress {
    match r
    case Grants(app, user, calls) => Grant(s, gates.Group(app), gates.Slugs(app), user, calls)
    case Revokes(app, user, calls) => Revoke(s, gates.Group(app), gates.Slugs(app), user, calls)
  }

  function ServeAll(s: State, gates: Gates, requests: seq<Request>): State
    decreases |requests|
  {
    if |requests| == 0 then s else ServeAll(Serve(s, gates, requests[0]).state, gates, requests[1..])
  }

  /** The requests are about these applications, and every revoke of the run gets all its calls answered; when `all`, every
      grant does too. */
  predicate Completes(s: State, gates: Gates, requests: seq<Request>, all: bool)
    decreases |requests|
  {
    |requests| > 0 ==>
      && requests[0].app in gates.apps
      && (requests[0].Revokes? || all ==> Serve(s, gates, requests[0]).Going?)
      && Completes(Serve(s, gates, requests[0]).state, gates, requests[1..], all)
  }

  ghost predicate AllWithin(s: State, gates: Gates) {
    forall a :: a in gates.apps ==> Within(s, gates, a)
  }

  ghost predicate AllOpen(s: State, gates: Gates) {
    forall a :: a in gates.apps ==> Open(s, gates.Group(a))
  }

  ghost predicate AllExact(s: State, gates: Gates) {
    forall a :: a in gates.apps ==> Exact(s, gates, a)
  }

  lemma SameTargets(s: State, s': State, gates: Gates, a: App)
    requires s'.applications == s.applications
    ensures Targets(s', gates, a) == Targets(s, gates, a)
  {
    SameRegistered(s, s', gates.Slugs(a));
    hide Registered;
  }

  /** The other gates are as they were. */
  lemma ElsewhereSame(s: State, s': State, gates: Gates, name: string, a: App)
    requires OthersUntouched(s, s', name) && WellFormed(s) && WellFormed(s') && gates.Group(a) != name
    ensures Within(s, gates, a) ==> Within(s', gates, a)
    ensures Open(s, gates.Group(a)) ==> Open(s', gates.Group(a))
    ensures Exact(s, gates, a) ==> Exact(s', gates, a)
  {
    hide Bound, Targets, Others, WellFormed, GroupName;
    var n := gates.Group(a);
    SameTargets(s, s', gates, a);
    OpenElsewhere(s, s', name, n);
    if n in s.groups {
      forall target ensures Bound(s', target, s.groups[n].pk) <==> Bound(s, target, s.groups[n].pk) {
        BoundElsewhere(s, s', name, n, target);
      }
      BoundElsewhere(s, s', name, n, 0);
    }
  }

  /** A grant through one application, seen from another one of its group. */
  lemma GrantHere(s: State, gates: Gates, a: App, c: App, user: int, calls: nat)
    requires WellFormed(s) && gates.Group(c) == gates.Group(a) && Alike(s, gates, a, c)
    requires Within(s, gates, c) && Open(s, gates.Group(a))
    ensures var p := Grant(s, gates.Group(a), gates.Slugs(a), user, calls);
            && Within(p.state, gates, c) && Open(p.state, gates.Group(a))
            && (p.Going? && Exact(s, gates, c) ==> Exact(p.state, gates, c))
  {
    hide Grant, Registered, Others, GroupName;
    var name := gates.Group(a);
    var p := Grant(s, name, gates.Slugs(a), user, calls);
    GrantEffect(s, name, gates.Slugs(a), user, calls);
    SameTargets(s, p.state, gates, c);
    SameTargets(s, p.state, gates, a);
    forall target ensures !LockedOut(p.state, name, target) {
      if name in s.groups { assert !LockedOut(s, name, target); }
    }
    assert forall target :: target in Targets(s, gates, a) <==> target in Targets(s, gates, c);
  }

  lemma RevokeHere(s: State, gates: Gates, a: App, c: App, user: int, calls: nat)
    requires WellFormed(s) && gates.Group(c) == gates.Group(a) && Alike(s, gates, a, c) && Within(s, gates, c)
    ensures var p := Revoke(s, gates.Group(a), gates.Slugs(a), user, calls);
            && Within(p.state, gates, c) && (p.Going? ==> Open(p.state, gates.Group(a)))
            && (p.Going? && Exact(s, gates, c) ==> Exact(p.state, gates, c))
  {
    var p := Revoke(s, gates.Group(a), gates.Slugs(a), user, calls);
    RevokeEffect(s, gates.Group(a), gates.Slugs(a), user, calls);
    SameTargets(s, p.state, gates, c);
    SameTargets(s, p.state, gates, a);
    hide Revoke, Registered, Others, GroupName;
    assert forall target :: target in Targets(s, gates, a) <==> target in Targets(s, gates, c);
  }

  /** A request changes no binding of any other group, wherever it stops. */
  lemma ServeTouchesOneGroup(s: State, gates: Gates, r: Request)
    requires WellFormed(s)
    ensures OthersUntouched(s, Serve(s, gates, r).state, gates.Group(r.app)) && WellFormed(Serve(s, gates, r).state)
  {
    hide Grant, Revoke, Others;
    match r
    case Grants(app, user, calls) => GrantEffect(s, gates.Group(app), gates.Slugs(app), user, calls);
    case Revokes(app, user, calls) => RevokeEffect(s, gates.Group(app), gates.Slugs(app), user, calls);
  }

  lemma ServeKeeps(s: State, gates: Gates, r: Request)
    requires WellFormed(s) && AllWithin(s, gates) && AllOpen(s, gates) && GroupsTell(s, gates) && r.app in gates.apps
    requires r.Revokes? ==> Serve(s, gates, r).Going?
    ensures var p := Serve(s, gates, r);
            && WellFormed(p.state) && AllWithin(p.state, gates) && AllOpen(p.state, gates) && GroupsTell(p.state, gates)
            && (p.Going? && AllExact(s, gates) ==> AllExact(p.state, gates))
  {
    hide Within, Open, Exact, WellFormed, Grant, Revoke, GroupName, Alike, Others;
    var p := Serve(s, gates, r);
    ServeTouchesOneGroup(s, gates, r);
    forall c | c in gates.apps
      ensures Within(p.state, gates, c) && Open(p.state, gates.Group(c)) && (p.Going? && Exact(s, gates, c) ==> Exact(p.state, gates, c))
    {
      if gates.Group(c) != gates.Group(r.app) {
        ElsewhereSame(s, p.state, gates, gates.Group(r.app), c);
      } else {
        match r {
          case Grants(app, user, calls) => GrantHere(s, gates, app, c, user, calls);
          case Revokes(app, user, calls) => RevokeHere(s, gates, app, c, user, calls);
        }
      }
    }
    StillTell(s, p.state, gates);
  }

  lemma StillTell(s: State, s': State, gates: Gates)
    requires GroupsTell(s, gates) && s'.applications == s.applications
    ensures GroupsTell(s', gates)
  {
    hide GroupName, Targets;
    forall a, b | a in gates.apps && b in gates.apps && gates.Group(a) == gates.Group(b) ensures Alike(s', gates, a, b) {
      SameTargets(s, s', gates, a);
      SameTargets(s, s', gates, b);
      assert Alike(s, gates, a, b);
    }
  }

  /** In every run of grants and revokes in which grants may stop after any call, nobody is ever locked out: no group is
      bound and empty. When nothing is cut short, every application stays bound exactly while its group has members. */
  lemma {:induction false} NeverLockedOut(s: State, gates: Gates, requests: seq<Request>, all: bool)
    requires WellFormed(s) && AllWithin(s, gates) && AllOpen(s, gates) && GroupsTell(s, gates)
    requires Completes(s, gates, requests, all) && (all ==> AllExact(s, gates))
    ensures var s' := ServeAll(s, gates, requests);
            AllOpen(s', gates) && (all ==> AllExact(s', gates))
    decreases |requests|
  {
    hide WellFormed, AllWithin, AllOpen, AllExact, GroupsTell, Serve;
    if |requests| > 0 {
      ServeKeeps(s, gates, requests[0]);
      NeverLockedOut(Serve(s, gates, requests[0]).state, gates, requests[1..], all);
    }
  }

  // ---- who gets in ----

  function MembersOf(s: State, name: string): set<int> {
    if name in s.groups then s.groups[name].members else {}
  }

  /** The members of each access group, as grants and revokes ask for them. */
  type Members = map<string, set<int>>

  function Of(t: Members, name: string): set<int> {
    if name in t then t[name] else {}
  }

  /** A grant on an application without any registration is refused. */
  function MembersAfter(t: Members, applications: map<string, nat>, gates: Gates, r: Request): Members {
    match r
    case Grants(app, user, _) =>
      if exists slug :: slug in gates.Slugs(app) && slug in applications
      then t[gates.Group(app) := Of(t, gates.Group(app)) + {user}] else t
    case Revokes(app, user, _) => t[gates.Group(app) := Of(t, gates.Group(app)) - {user}]
  }

  function MembersAfterAll(t: Members, applications: map<string, nat>, gates: Gates, requests: seq<Request>): Members
    decreases |requests|
  {
    if |requests| == 0 then t
    else MembersAfterAll(MembersAfter(t, applications, gates, requests[0]), applications, gates, requests[1..])
  }

  lemma {:induction false} SomeRegistered(s: State, slugs: seq<string>)
    ensures Registered(s, slugs) != [] <==> exists slug :: slug in slugs && slug in s.applications
    decreases |slugs|
  {
    if slugs != [] {
      SomeRegistered(s, slugs[1..]);
      assert forall slug :: slug in slugs <==> slug == slugs[0] || slug in slugs[1..];
    }
  }

  /** A grant that goes on leaves exactly the old members and the user; one that stops leaves the old members or these. */
  lemma GrantMembers(s: State, name: string, slugs: seq<string>, user: int, calls: nat)
    requires WellFormed(s)
    ensures var p, more := Grant(s, name, slugs, user, calls), MembersOf(s, name) + {user};
            && (p.Going? && (exists slug :: slug in slugs && slug in s.applications) ==> MembersOf(p.state, name) == more)
            && (p.Stopped? ==> MembersOf(p.state, name) in {MembersOf(s, name), more})
            && (!(exists slug :: slug in slugs && slug in s.applications) ==> p == Going(s, calls))
  {
    SomeRegistered(s, slugs);
    hide Registered, BindAll;
    var targets := Registered(s, slugs);
    if targets != [] {
      var p := EnsureGroup(s, name, calls);
      if p.Going? {
        EnsuredWellFormed(s, name, calls);
        AddedMembers(p.state, name, targets, user, p.calls);
      }
    }
  }

  lemma AddedMembers(s: State, name: string, targets: seq<nat>, user: int, calls: nat)
    requires WellFormed(s) && name in s.groups
    ensures var p := AddAndBind(s, name, targets, user, calls);
            && (p.Going? ==> MembersOf(p.state, name) == MembersOf(s, name) + {user})
            && (p.Stopped? ==> MembersOf(p.state, name) in {MembersOf(s, name), MembersOf(s, name) + {user}})
  {
    hide BindAll, Others;
    var s1 := WithMembers(s, name, s.groups[name].members + {user});
    if calls > 0 { BindsOnly(s1, targets, s.groups[name].pk, calls - 1); }
  }

  /** The members after a request that goes on are those of the table; if it stops, its change has been made or not. Other
      groups keep theirs. */
  lemma ServeMembers(s: State, t: Members, gates: Gates, r: Request, name: string)
    requires WellFormed(s) && MembersOf(s, name) == Of(t, name)
    ensures var p, after := Serve(s, gates, r), Of(MembersAfter(t, s.applications, gates, r), name);
            && (p.Going? ==> MembersOf(p.state, name) == after)
            && (p.Stopped? ==> MembersOf(p.state, name) in {Of(t, name), after})
  {
    ServeTouchesOneGroup(s, gates, r);
    hide Grant, Revoke, GroupName, Others;
    match r {
      case Grants(app, user, calls) => GrantMembers(s, gates.Group(app), gates.Slugs(app), user, calls);
      case Revokes(app, user, calls) => RevokeEffect(s, gates.Group(app), gates.Slugs(app), user, calls);
    }
    hide WellFormed, Registered;
  }

  /** Over every run in which nothing is cut short, each access group has exactly the members that the grants and revokes
      have asked for. */
  lemma {:induction false} MembersRefineTable(s: State, t: Members, gates: Gates, requests: seq<Request>)
    requires WellFormed(s) && Completes(s, gates, requests, true) && forall n :: MembersOf(s, n) == Of(t, n)
    ensures forall n :: MembersOf(ServeAll(s, gates, requests), n) == Of(MembersAfterAll(t, s.applications, gates, requests), n)
    decreases |requests|
  {
    hide WellFormed, Serve, MembersAfter, Of, MembersOf;
    if |requests| > 0 {
      var s1, t1 := Serve(s, gates, requests[0]).state, MembersAfter(t, s.applications, gates, requests[0]);
      forall n ensures MembersOf(s1, n) == Of(t1, n) { ServeMembers(s, t, gates, requests[0], n); }
      ServeTouchesOneGroup(s, gates, requests[0]);
      MembersRefineTable(s1, t1, gates, requests[1..]);
    }
  }

  // ---- exactly when nobody is ever locked out ----

  /** Authentik before the first request: registrations, and no group of ours. */
  function Fresh(applications: map<string, nat>): State {
    State(map[], applications, [], 0)
  }

  /** Over all runs about these applications with completed revokes, nobody is locked out; over those with nothing cut short,
      every application is bound exactly while its group has members. */
  ghost predicate AlwaysOpen(applications: map<string, nat>, gates: Gates, all: bool) {
    forall requests :: Completes(Fresh(applications), gates, requests, all) ==>
      var s := ServeAll(Fresh(applications), gates, requests);
      AllOpen(s, gates) && (all ==> AllExact(s, gates))
  }

  lemma {:induction false} BindsWithEnough(s: State, targets: seq<nat>, group: nat, calls: nat)
    requires calls >= |targets|
    ensures BindAll(s, targets, group, calls).Going?
    decreases |targets|
  {
    if |targets| > 0 {
      if Bound(s, targets[0], group) {
        BindsWithEnough(s, targets[1..], group, calls);
      } else {
        BindsWithEnough(WithBinding(s, targets[0], group), targets[1..], group, calls - 1);
      }
    }
  }

  function FirstMember(applications: map<string, nat>, name: string, user: int): State {
    State(map[name := Group(0, {user})], applications, [], 1)
  }

  lemma FirstGrantBinds(applications: map<string, nat>, name: string, slugs: seq<string>, user: int, calls: nat)
    requires Registered(Fresh(applications), slugs) != []
    ensures Grant(Fresh(applications), name, slugs, user, 2 + calls)
            == BindAll(FirstMember(applications, name, user), Registered(Fresh(applications), slugs), 0, calls)
  {
    hide Registered, BindAll;
    var s := Fresh(applications);
    assert {} + {user} == {user};
    assert map[][name := Group(0, {user})] == map[name := Group(0, {user})];
    assert WithMembers(WithGroup(s, name), name, {user}) == FirstMember(applications, name, user);
  }

  /** The first grant of a group, with as many calls as it needs. */
  lemma FirstGrant(applications: map<string, nat>, name: string, slugs: seq<string>, user: int) returns (calls: nat)
    requires Registered(Fresh(applications), slugs) != []
    ensures var s, p := Fresh(applications), Grant(Fresh(applications), name, slugs, user, calls);
            && p.Going? && WellFormed(p.state) && p.state.applications == applications
            && name in p.state.groups && p.state.groups[name].members == {user}
            && forall target :: target in Registered(s, slugs) ==> Bound(p.state, target, p.state.groups[name].pk)
  {
    hide Grant, Registered, BindAll, Granted, Bound, Others;
    var s, targets := Fresh(applications), Registered(Fresh(applications), slugs);
    calls := 2 + |targets|;
    FirstGrantBinds(applications, name, slugs, user, |targets|);
    BindsWithEnough(FirstMember(applications, name, user), targets, 0, |targets|);
    BindsOnly(FirstMember(applications, name, user), targets, 0, |targets|);
  }

  lemma TwoRequests(s: State, gates: Gates, r: Request, q: Request, all: bool)
    requires r.app in gates.apps && q.app in gates.apps
    requires Serve(s, gates, r).Going? && Serve(Serve(s, gates, r).state, gates, q).Going?
    ensures Completes(s, gates, [r] + [q], all)
    ensures ServeAll(s, gates, [r] + [q]) == Serve(Serve(s, gates, r).state, gates, q).state
  {
    hide Serve;
    var s1, rest := Serve(s, gates, r).state, ([r] + [q])[1..];
    assert rest == [q] && [q][1..] == [];
    assert Completes(s1, gates, [q], all);
    assert ServeAll(s1, gates, [q]) == Serve(s1, gates, q).state;
  }

  /** Two applications of one group, where the second has a registration that the first has not: a grant on the second,
      and a revoke of that member through the first. Everybody is locked out of the registration. */
  lemma SharedGroupLocks(applications: map<string, nat>, gates: Gates, a: App, b: App, target: nat, all: bool)
    requires a in gates.apps && b in gates.apps && gates.Group(a) == gates.Group(b)
    requires target in Targets(Fresh(applications), gates, b) && target !in Targets(Fresh(applications), gates, a)
    ensures !AlwaysOpen(applications, gates, all)
  {
    hide GroupName, Registered, Grant, Revoke, KeysOn, WellFormed;
    var s, name := Fresh(applications), gates.Group(a);
    var calls := FirstGrant(applications, name, gates.Slugs(b), 1);
    var s1 := Grant(s, name, gates.Slugs(b), 1, calls).state;
    SameTargets(s, s1, gates, a);
    var enough := 1 + |KeysOn(s1, Registered(s1, gates.Slugs(a)), s1.groups[name].pk)|;
    RevokeStopsIff(s1, name, gates.Slugs(a), 1, enough);
    CompletedRevokeOpensIff(s1, name, gates.Slugs(a), 1, enough);
    assert Bound(s1, target, s1.groups[name].pk);
    assert BoundBeyond(s1, s1.groups[name].pk, Targets(s1, gates, a));
    var r, q := Grants(b, 1, calls), Revokes(a, 1, enough);
    TwoRequests(s, gates, r, q, all);
    var s2 := ServeAll(s, gates, [r] + [q]);
    assert !AllOpen(s2, gates);
  }

  lemma FreshIsFine(applications: map<string, nat>, gates: Gates)
    ensures var s := Fresh(applications); WellFormed(s) && AllWithin(s, gates) && AllOpen(s, gates) && AllExact(s, gates)
  {
    hide GroupName, Registered;
  }

  /** Nobody is ever locked out, over all runs about these applications in which revokes complete, if and only if applications
      with one access group have the same registrations; and exactly then every application is bound exactly while its group
      has members, over all runs in which nothing is cut short. */
  lemma NeverLockedOutIff(applications: map<string, nat>, gates: Gates, all: bool)
    ensures AlwaysOpen(applications, gates, all) <==> GroupsTell(Fresh(applications), gates)
  {
    hide GroupName, Targets, Completes, ServeAll, WellFormed, AllWithin, AllOpen, AllExact;
    var s := Fresh(applications);
    if GroupsTell(s, gates) {
      FreshIsFine(applications, gates);
      forall requests | Completes(s, gates, requests, all)
        ensures AllOpen(ServeAll(s, gates, requests), gates) && (all ==> AllExact(ServeAll(s, gates, requests), gates))
      {
        NeverLockedOut(s, gates, requests, all);
      }
    } else {
      var a, b :| a in gates.apps && b in gates.apps && gates.Group(a) == gates.Group(b) && !Alike(s, gates, a, b);
      var target :| (target in Targets(s, gates, a)) != (target in Targets(s, gates, b));
      if target in Targets(s, gates, a) {
        SharedGroupLocks(applications, gates, b, a, target, all);
      } else {
        SharedGroupLocks(applications, gates, a, b, target, all);
      }
    }
  }

  /** Ordinary names share a group: `eu-web` of client `acme` in `prod`, and `web` of client `acme-prod` in `eu`. */
  lemma SharedReleaseNames(prefix: string)
    ensures GroupName(prefix, App("acme", "prod", "eu-web")) == GroupName(prefix, App("acme-prod", "eu", "web"))
    ensures App("acme", "prod", "eu-web").Release() != App("acme-prod", "eu", "web").Release()
  {
    assert Names.TruncateLabel("acme-prod") == "acme-prod" && Names.TruncateLabel("acme-prod-eu") == "acme-prod-eu";
    assert "acme" + "-" + "prod" == "acme-prod" && "acme-prod" + "-" + "eu" == "acme-prod-eu";
    assert "acme-prod" + "-" + "eu-web" == "acme-prod-eu" + "-" + "web";
  }

  /** With a registration each, they lock everybody out. */
  lemma NamesakesLockOut(prefix: string)
    ensures var x, y := App("acme", "prod", "eu-web"), App("acme-prod", "eu", "web");
            var gates := Gates(prefix, map[x.Release() := ["shop"], y.Release() := ["blog"]], {x, y});
            !AlwaysOpen(map["shop" := 10, "blog" := 20], gates, true) && !AlwaysOpen(map["shop" := 10, "blog" := 20], gates, false)
  {
    var x, y := App("acme", "prod", "eu-web"), App("acme-prod", "eu", "web");
    var gates := Gates(prefix, map[x.Release() := ["shop"], y.Release() := ["blog"]], {x, y});
    var applications := map["shop" := 10, "blog" := 20];
    SharedReleaseNames(prefix);
    assert gates.Slugs(x) == ["shop"] && gates.Slugs(y) == ["blog"];
    assert ["shop"][1..] == [] && ["blog"][1..] == [];
    assert Targets(Fresh(applications), gates, x) == [10] && Targets(Fresh(applications), gates, y) == [20];
    hide GroupName, Targets, AlwaysOpen;
    SharedGroupLocks(applications, gates, x, y, 20, true);
    SharedGroupLocks(applications, gates, x, y, 20, false);
  }

  // ---- the client and the two endpoints ----

  /** The Authentik client. `calls` changing calls will still be answered; a method whose `ok` is false has raised. */
  class AuthentikAdmin {
    var groups: map<string, Group>
    var applications: map<string, nat>
    var bindings: seq<Binding>
    var next: nat
    var calls: nat

    function View(): State
      reads this
    {
      State(groups, applications, bindings, next)
    }

    function Outcome(ok: bool): Progress
      reads this
    {
      if ok then Going(View(), calls) else Stopped(View())
    }

    constructor (s: State, calls: nat)
      ensures View() == s && this.calls == calls
    {
      groups, applications, bindings, next := s.groups, s.applications, s.bindings, s.next;
      this.calls := calls;
    }

    method EnsureGroupNamed(name: string) returns (ok: bool)
      modifies this
      ensures Outcome(ok) == EnsureGroup(old(View()), name, old(calls))
    {
      if name in groups { return true; }
      if calls == 0 { return false; }
      calls := calls - 1;
      groups, next := groups[name := Group(next, {})], next + 1;
      ok := true;
    }

    method SetMembers(name: string, members: set<int>) returns (ok: bool)
      requires name in groups
      modifies this`groups, this`calls
      ensures Outcome(ok) == Call(old(View()), old(calls), WithMembers(old(View()), name, members))
    {
      if calls == 0 { return false; }
      calls := calls - 1;
      groups := groups[name := groups[name].(members := members)];
      ok := true;
    }

    /** Binds the group to the application, once. */
    method EnsureBinding(app: nat, group: nat) returns (ok: bool)
      modifies this`bindings, this`next, this`calls
      ensures Outcome(ok) == BindAll(old(View()), [app], group, old(calls))
    {
      assert [app][1..] == [];
      if exists b :: b in bindings && b.target == app && b.group == group { return true; }
      if calls == 0 { return false; }
      calls := calls - 1;
      bindings, next := bindings + [Binding(next, app, group)], next + 1;
      ok := true;
    }

    /** Deletes each binding of the group on the application. */
    method RemoveBinding(app: nat, group: nat) returns (ok: bool)
      modifies this`bindings, this`calls
      ensures Outcome(ok) == DeleteEach(old(View()), BindingsOf(old(bindings), app, group), old(calls))
    {
      var pks := BindingsOf(bindings, app, group);
      var i := 0;
      while i < |pks|
        invariant i <= |pks| && groups == old(groups) && next == old(next) && applications == old(applications)
        invariant DeleteEach(View(), pks[i..], calls) == DeleteEach(old(View()), pks, old(calls))
      {
        assert pks[i..][1..] == pks[i + 1..];
        if calls == 0 { return false; }
        calls := calls - 1;
        bindings := Dropped(bindings, pks[i]);
        i := i + 1;
      }
      ok := true;
    }

    /** `grant_access` for the application, with the slugs that the cluster lists for it. */
    method GrantAccess(prefix: string, app: App, slugs: seq<string>, user: int) returns (ok: bool)
      modifies this
      ensures Outcome(ok) == Grant(old(View()), GroupName(prefix, app), slugs, user, old(calls))
    {
      hide Registered, Bound, GroupName;
      var name := GroupName(prefix, app);
      var apps := Registered(View(), slugs);
      if apps == [] { return true; }
      ok := EnsureGroupNamed(name);
      if !ok { return; }
      var group := groups[name].pk;
      ghost var ensured, left := View(), calls;
      ok := SetMembers(name, groups[name].members + {user});
      if !ok { return; }
      ghost var inside, after := View(), calls;
      var i := 0;
      while i < |apps|
        invariant i <= |apps|
        invariant BindAll(View(), apps[i..], group, calls) == BindAll(inside, apps, group, after)
      {
        assert apps[i..][1..] == apps[i + 1..];
        assert [apps[i]][1..] == [];
        ok := EnsureBinding(apps[i], group);
        if !ok { return; }
        i := i + 1;
      }
    }

    /** `revoke_access` for the application. */
    method RevokeAccess(prefix: string, app: App, slugs: seq<string>, user: int) returns (ok: bool)
      modifies this
      ensures Outcome(ok) == Revoke(old(View()), GroupName(prefix, app), slugs, user, old(calls))
    {
      hide GroupName;
      var name := GroupName(prefix, app);
      if name !in groups { return true; }
      var group := groups[name].pk;
      ok := SetMembers(name, groups[name].members - {user});
      if !ok || groups[name].members != {} { return; }
      ghost var emptied, after := View(), calls;
      SameRegistered(old(View()), View(), slugs);
      var i := 0;
      while i < |slugs|
        invariant i <= |slugs| && applications == emptied.applications
        invariant UnbindAll(View(), Registered(View(), slugs[i..]), group, calls)
                  == UnbindAll(emptied, Registered(emptied, slugs), group, after)
      {
        assert slugs[i..][1..] == slugs[i + 1..];
        ghost var before := View();
        if slugs[i] in applications {
          assert Registered(before, slugs[i..])[1..] == Registered(before, slugs[i + 1..]);
          ok := RemoveBinding(applications[slugs[i]], group);
          if !ok { return; }
          SameRegistered(before, View(), slugs[i + 1..]);
        } else {
          assert Registered(before, slugs[i..]) == Registered(before, slugs[i + 1..]);
        }
        i := i + 1;
      }
      ok := true;
    }
  }
}
