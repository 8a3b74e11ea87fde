/** The fan-out: a parent's reconciler stamps every application that inherits from it with the parent's revision, and the
    change of the stamp re-renders the application. All parents share one annotation. */
module Requeue {
  import opened Text
  import opened Wrappers

  datatype Id = Id(namespace: string, name: string)

  datatype App = App(environment: string, appType: string, domain: string, stamp: Option<string>)

  /** The parents whose reconcilers fan out. Organizations and types are cluster-scoped. */
  datatype Parent =
    | Organization(name: string)
    | ApplicationType(name: string)
    | Client(name: string, namespace: string)
    | Environment(name: string, namespace: string)
    | Domain(name: string, namespace: string)

  function Kind(p: Parent): string {
    match p
    case Organization(_) => "organization"
    case ApplicationType(_) => "applicationtype"
    case Client(_, _) => "client"
    case Environment(_, _) => "environment"
    case Domain(_, _) => "domain"
  }

  /** The namespace that the fan-out is confined to. */
  function Scope(p: Parent): Option<string> {
    if p.Organization? || p.ApplicationType? then None else Some(p.namespace)
  }

  function Revision(kind: string, name: string, generation: nat): string {
    kind + "/" + name + "@" + Decimal(generation)
  }

  function RevisionOf(p: Parent, generation: nat): string {
    Revision(Kind(p), p.name, generation)
  }

  /** The predicate that narrows the fan-out. */
  predicate Wanted(p: Parent, app: App) {
    match p
    case ApplicationType(name) => app.appType == name
    case Environment(name, _) => app.environment == name
    case Domain(name, _) => app.domain == name
    case _ => true
  }

  predicate Listed(scope: Option<string>, id: Id) {
    scope.None? || scope.value == id.namespace
  }

  predicate Inherits(p: Parent, id: Id, app: App) {
    Listed(Scope(p), id) && Wanted(p, app)
  }

  type Apps = map<Id, App>

  /** What a fan-out meets: whether the listing is answered, and the applications whose patch is refused. */
  datatype Calls = Calls(listed: bool, refused: set<Id>)

  /** The applications that do not carry the revision. */
  function Changed(apps: Apps, p: Parent, generation: nat): set<Id> {
    set id | id in apps && Inherits(p, id, apps[id]) && apps[id].stamp != Some(RevisionOf(p, generation))
  }

  /** Those of them that the fan-out changes. */
  function Reached(apps: Apps, p: Parent, generation: nat, calls: Calls): set<Id> {
    if calls.listed then Changed(apps, p, generation) - calls.refused else {}
  }

  /** The applications after the fan-out. */
  function Stamped(apps: Apps, p: Parent, generation: nat, calls: Calls): Apps {
    Restamped(apps, Reached(apps, p, generation, calls), RevisionOf(p, generation))
  }

  function Restamped(apps: Apps, ids: set<Id>, rev: string): Apps {
    map id | id in apps :: if id in ids then apps[id].(stamp := Some(rev)) else apps[id]
  }

  function Heirs(apps: Apps, p: Parent): set<Id> {
    set id | id in apps && Inherits(p, id, apps[id])
  }

  // ---- the loop ----

  /** The applications in the cluster. */
  class Cluster {
    var apps: Apps

    constructor ()
      ensures apps == map[]
    {
      apps := map[];
    }

    /** Stamps one application if it inherits from the parent and does not carry the stamp; a refused patch is swallowed. */
    method Stamp(p: Parent, id: Id, rev: string, refused: bool) returns (changed: nat)
      requires id in apps
      modifies this
      ensures var stamps := Wanted(p, old(apps)[id]) && old(apps)[id].stamp != Some(rev) && !refused;
              && apps == (if stamps then old(apps)[id := old(apps)[id].(stamp := Some(rev))] else old(apps))
              && changed == if stamps then 1 else 0
    {
      hide Wanted;
      changed := 0;
      if apps[id].stamp != Some(rev) && Wanted(p, apps[id]) {
        if !refused {
          apps := apps[id := apps[id].(stamp := Some(rev))];
          changed := 1;
        }
      }
    }

    /** `requeue_applications` for a parent, with the listing in the order the API server returns it. */
    method RequeueApplications(p: Parent, generation: nat, listing: seq<Id>, calls: Calls) returns (count: nat)
      requires forall id :: id in listing <==> id in apps && Listed(Scope(p), id)
      requires forall i, j :: 0 <= i < j < |listing| ==> listing[i] != listing[j]
      modifies this
      ensures apps == Stamped(old(apps), p, generation, calls)
      ensures count == |Reached(old(apps), p, generation, calls)|
    {
      hide RevisionOf, Wanted, Changed, Reached, Restamped, Ids, Listed, Scope;
      count := 0;
      NoneDone(apps, RevisionOf(p, generation));
      if !calls.listed {
        ReachedNone(apps, p, generation, calls);
        return;
      }
      var rev := RevisionOf(p, generation);
      ghost var reached := Reached(apps, p, generation, calls);
      NoneListed(listing, reached);
      for i := 0 to |listing|
        invariant apps == Restamped(old(apps), reached * Ids(listing[..i]), rev)
        invariant count == |reached * Ids(listing[..i])|
      {
        var id := listing[i];
        OneMoreListed(listing, i);
        ReachedWhen(old(apps), p, generation, calls, id);
        OneMore(old(apps), reached, Ids(listing[..i]), id, rev);
        var changed := Stamp(p, id, rev, id in calls.refused);
        count := count + changed;
      }
      AllListed(old(apps), p, generation, calls, listing);
    }
  }

  function Ids(listing: seq<Id>): set<Id> {
    set id | id in listing
  }

  lemma ReachedNone(apps: Apps, p: Parent, generation: nat, calls: Calls)
    requires !calls.listed
    ensures Reached(apps, p, generation, calls) == {}
  {
  }

  lemma ReachedWhen(apps: Apps, p: Parent, generation: nat, calls: Calls, id: Id)
    requires calls.listed && id in apps && Listed(Scope(p), id)
    ensures id in Reached(apps, p, generation, calls) <==>
              Wanted(p, apps[id]) && apps[id].stamp != Some(RevisionOf(p, generation)) && id !in calls.refused
  {
    hide RevisionOf, Wanted;
  }

  lemma AllListed(apps: Apps, p: Parent, generation: nat, calls: Calls, listing: seq<Id>)
    requires forall id :: id in listing <==> id in apps && Listed(Scope(p), id)
    ensures Reached(apps, p, generation, calls) * Ids(listing[..|listing|]) == Reached(apps, p, generation, calls)
  {
    hide RevisionOf, Wanted;
    assert listing[..|listing|] == listing;
  }

  lemma NoneListed(listing: seq<Id>, ids: set<Id>)
    ensures ids * Ids(listing[..0]) == {}
  {
  }

  lemma OneMoreListed(listing: seq<Id>, i: nat)
    requires i < |listing| && forall i, j :: 0 <= i < j < |listing| ==> listing[i] != listing[j]
    ensures listing[i] in listing && listing[i] !in Ids(listing[..i])
    ensures Ids(listing[..i + 1]) == Ids(listing[..i]) + {listing[i]}
  {
    assert listing[..i + 1] == listing[..i] + [listing[i]];
  }

  lemma NoneDone(apps: Apps, rev: string)
    ensures Restamped(apps, {}, rev) == apps
  {
  }

  lemma OneMore(apps: Apps, reached: set<Id>, done: set<Id>, id: Id, rev: string)
    requires id in apps && id !in done
    ensures var before := Restamped(apps, reached * done, rev);
            && id in before && before[id] == apps[id]
            && Restamped(apps, reached * (done + {id}), rev)
               == (if id in reached then before[id := apps[id].(stamp := Some(rev))] else before)
    ensures |reached * (done + {id})| == |reached * done| + if id in reached then 1 else 0
  {
    assert reached * (done + {id}) == if id in reached then reached * done + {id} else reached * done;
  }

  /** A fan-out after one that was cut short deals with what is left, and with nothing else. */
  lemma RetryReaches(apps: Apps, p: Parent, generation: nat, calls: Calls)
    ensures var after := Stamped(apps, p, generation, calls);
            && Heirs(after, p) == Heirs(apps, p)
            && Changed(after, p, generation) == Changed(apps, p, generation) - Reached(apps, p, generation, calls)
            && (forall id :: id in Reached(apps, p, generation, calls) ==> after[id].stamp == Some(RevisionOf(p, generation)))
  {
    hide RevisionOf, Listed;
  }

  // ---- revisions are injective ----

  /** Names of Kubernetes objects. */
  predicate Plain(s: string) {
    '/' !in s && '@' !in s
  }

  lemma KindIsPlain(p: Parent)
    ensures Plain(Kind(p))
  {
  }

  lemma KindsDiffer(p: Parent, q: Parent)
    requires Kind(p) == Kind(q)
    ensures p.Organization? == q.Organization? && p.ApplicationType? == q.ApplicationType? && p.Client? == q.Client?
    ensures p.Environment? == q.Environment? && p.Domain? == q.Domain?
  {
    assert |"organization"| == 12 && |"applicationtype"| == 15 && |"client"| == 6 && |"environment"| == 11 && |"domain"| == 6;
    assert "client"[0] == 'c' && "domain"[0] == 'd';
  }

  lemma AtSignsApart(a: string, x: string, b: string, y: string)
    requires '@' !in b && |a| < |b|
    ensures a + ("@" + x) != b + ("@" + y)
  {
    if |a + ("@" + x)| == |b + ("@" + y)| {
      assert (a + ("@" + x))[|a|] == '@';
      assert (b + ("@" + y))[|a|] == b[|a|] != '@';
    }
  }

  lemma AtSignSplit(a: string, x: string, b: string, y: string)
    requires '@' !in a && '@' !in b && a + ("@" + x) == b + ("@" + y)
    ensures a == b && x == y
  {
    if |a| < |b| { AtSignsApart(a, x, b, y); }
    if |b| < |a| { AtSignsApart(b, y, a, x); }
    assert a == (a + ("@" + x))[..|a|] && b == (b + ("@" + y))[..|b|];
    assert x == (a + ("@" + x))[|a| + 1..] && y == (b + ("@" + y))[|b| + 1..];
  }

  lemma RevisionsInjective(p: Parent, g: nat, q: Parent, h: nat)
    requires Plain(p.name) && Plain(q.name) && RevisionOf(p, g) == RevisionOf(q, h)
    ensures Kind(p) == Kind(q) && p.name == q.name && g == h
  {
    KindIsPlain(p);
    KindIsPlain(q);
    hide Kind, Decimal;
    var x, y := p.name + ("@" + Decimal(g)), q.name + ("@" + Decimal(h));
    assert RevisionOf(p, g) == Kind(p) + ("/" + x) && RevisionOf(q, h) == Kind(q) + ("/" + y);
    SlashSplit(Kind(p), "/" + x, Kind(q), "/" + y);
    assert ("/" + x)[1..] == x && ("/" + y)[1..] == y;
    AtSignSplit(p.name, Decimal(g), q.name, Decimal(h));
    if g != h { DecimalsDiffer(g, h); }
  }

  // ---- runs ----

  /** A parent in the cluster: its uid, and the generation that its spec is at. */
  datatype Object = Object(uid: nat, generation: nat)

  /** Who last stamped an application: the parent, in the life with this uid, at this generation. */
  datatype Mark = Mark(parent: Parent, uid: nat, generation: nat)

  /** Parents and applications, with a record of the last stamps and of the reconciles so far. */
  datatype State = State(parents: map<Parent, Object>, apps: Apps, marks: map<Id, Mark>, done: set<Mark>, next: nat)

  datatype Step =
    | Create(parent: Parent)
    | Edit(parent: Parent)
    | Remove(parent: Parent)
    | Put(id: Id, environment: string, appType: string, domain: string)
    | Delete(id: Id)
    | Reconcile(parent: Parent, calls: Calls)

  function MarkOf(s: State, p: Parent): Mark
    requires p in s.parents
  {
    Mark(p, s.parents[p].uid, s.parents[p].generation)
  }

  function Marked(marks: map<Id, Mark>, ids: set<Id>, mark: Mark): map<Id, Mark> {
    map id | id in marks.Keys + ids :: if id in ids then mark else marks[id]
  }

  function FanOut(s: State, p: Parent, calls: Calls): State
    requires p in s.parents
  {
    var g := s.parents[p].generation;
    s.(apps := Stamped(s.apps, p, g, calls),
       marks := Marked(s.marks, Reached(s.apps, p, g, calls), MarkOf(s, p)),
       done := s.done + {MarkOf(s, p)})
  }

  /** A created parent starts at generation 1, an edit of its spec counts one up, and reconciles are at its generation. */
  function Take(s: State, step: Step): State {
    match step
    case Create(p) => if p in s.parents then s else s.(parents := s.parents[p := Object(s.next, 1)], next := s.next + 1)
    case Edit(p) =>
      if p !in s.parents then s
      else s.(parents := s.parents[p := s.parents[p].(generation := s.parents[p].generation + 1)])
    case Remove(p) => s.(parents := s.parents - {p})
    case Put(id, environment, appType, domain) =>
      s.(apps := s.apps[id := App(environment, appType, domain, if id in s.apps then s.apps[id].stamp else None)])
    case Delete(id) => s.(apps := s.apps - {id}, marks := s.marks - {id})
    case Reconcile(p, calls) => if p in s.parents then FanOut(s, p, calls) else s
  }

  function Run(s: State, steps: seq<Step>): State
    decreases |steps|
  {
    if |steps| == 0 then s else Run(Take(s, steps[0]), steps[1..])
  }

  const EMPTY: State := State(map[], map[], map[], {}, 1)

  /** A stamp is the revision of its mark, which a reconcile of that life made. */
  ghost predicate Marks(s: State, id: Id) {
    if id in s.marks then
      var m := s.marks[id];
      && id in s.apps && s.apps[id].stamp == Some(RevisionOf(m.parent, m.generation)) && Listed(Scope(m.parent), id)
      && m in s.done
    else id in s.apps ==> s.apps[id].stamp.None?
  }

  /** No life is younger than the present one. */
  ghost predicate Lives(s: State, m: Mark) {
    && Plain(m.parent.name) && m.uid < s.next
    && (m.parent in s.parents ==> m.uid <= s.parents[m.parent].uid)
  }

  ghost predicate Inv(s: State) {
    && (forall id :: Marks(s, id))
    && (forall m :: m in s.done ==> Lives(s, m))
    && (forall p :: p in s.parents ==> s.parents[p].uid < s.next && Plain(p.name))
  }

  predicate AllPlain(steps: seq<Step>) {
    forall step :: step in steps && step.Create? ==> Plain(step.parent.name)
  }

  lemma FanOutKeeps(s: State, p: Parent, calls: Calls)
    requires Inv(s) && p in s.parents
    ensures Inv(FanOut(s, p, calls))
  {
    hide Plain, RevisionOf, Wanted, Listed;
    var s', g := FanOut(s, p, calls), s.parents[p].generation;
    forall id ensures Marks(s', id) {
      assert Marks(s, id);
      if id in Reached(s.apps, p, g, calls) { assert MarkOf(s, p) in s'.done; }
    }
    forall m | m in s'.done ensures Lives(s', m) {
      assert m == MarkOf(s, p) || Lives(s, m);
    }
  }

  lemma TakeKeeps(s: State, step: Step)
    requires Inv(s) && (step.Create? ==> Plain(step.parent.name))
    ensures Inv(Take(s, step))
  {
    hide Plain, RevisionOf, FanOut, Listed;
    var s' := Take(s, step);
    if step.Reconcile? {
      if step.parent in s.parents { FanOutKeeps(s, step.parent, step.calls); }
    } else {
      forall id ensures Marks(s', id) { assert Marks(s, id); }
      forall m | m in s'.done ensures Lives(s', m) { assert Lives(s, m); }
    }
  }

  lemma {:induction false} RunKeeps(s: State, steps: seq<Step>)
    requires Inv(s) && AllPlain(steps)
    ensures Inv(Run(s, steps))
    decreases |steps|
  {
    hide Inv, Take;
    if |steps| > 0 {
      TakeKeeps(s, steps[0]);
      RunKeeps(Take(s, steps[0]), steps[1..]);
    }
  }

  /** A revision names the parent among those that list the application. */
  lemma SameParent(p: Parent, g: nat, q: Parent, h: nat, id: Id)
    requires Plain(p.name) && Plain(q.name) && Listed(Scope(p), id) && Listed(Scope(q), id)
    ensures RevisionOf(p, g) == RevisionOf(q, h) <==> p == q && g == h
  {
    hide Plain, RevisionOf, Kind;
    if RevisionOf(p, g) == RevisionOf(q, h) {
      RevisionsInjective(p, g, q, h);
      KindsDiffer(p, q);
    }
  }

  /** A fan-out passes over an application exactly when the last stamp on it was put there by this very parent at this
      generation, in whatever life. */
  lemma PassedOverIff(s: State, p: Parent, id: Id)
    requires Inv(s) && p in s.parents && id in Heirs(s.apps, p)
    ensures id !in Changed(s.apps, p, s.parents[p].generation) <==>
              id in s.marks && s.marks[id].parent == p && s.marks[id].generation == s.parents[p].generation
  {
    hide Plain, RevisionOf, Wanted, Listed;
    assert Marks(s, id);
    if id in s.marks {
      var m := s.marks[id];
      assert Lives(s, m);
      SameParent(p, s.parents[p].generation, m.parent, m.generation, id);
    }
  }

  /** Over any run, the first reconcile of a parent at its generation misses an heir if and only if the last stamp on it was
      put there by an earlier life of the parent at the same generation. */
  lemma MissedIff(steps: seq<Step>, p: Parent, id: Id)
    requires AllPlain(steps)
    requires var s := Run(EMPTY, steps); p in s.parents && MarkOf(s, p) !in s.done && id in Heirs(s.apps, p)
    ensures var s := Run(EMPTY, steps);
            id !in Changed(s.apps, p, s.parents[p].generation) <==>
              && id in s.marks && s.marks[id].parent == p && s.marks[id].generation == s.parents[p].generation
              && s.marks[id].uid < s.parents[p].uid
  {
    hide Plain, RevisionOf, Run, Changed, Heirs;
    var s := Run(EMPTY, steps);
    assert Inv(EMPTY);
    RunKeeps(EMPTY, steps);
    PassedOverIff(s, p, id);
    assert Marks(s, id);
    if id in s.marks { assert Lives(s, s.marks[id]); }
  }

  // ---- exactly when no update is lost ----

  /** Only these parents are ever removed. */
  predicate RemovesIn(steps: seq<Step>, mortal: set<Parent>) {
    forall step :: step in steps && step.Remove? ==> step.parent in mortal
  }

  /** The first reconcile of any parent at its generation, in any life, has all its heirs to change. */
  ghost predicate ReachesAll(s: State) {
    forall p :: p in s.parents && MarkOf(s, p) !in s.done ==>
      Changed(s.apps, p, s.parents[p].generation) == Heirs(s.apps, p)
  }

  ghost predicate NeverMisses(mortal: set<Parent>) {
    forall steps :: AllPlain(steps) && RemovesIn(steps, mortal) ==> ReachesAll(Run(EMPTY, steps))
  }

  /** Every reconcile of the parent so far was in its present life. */
  ghost predicate OneLife(s: State, p: Parent) {
    forall m :: m in s.done && m.parent == p ==> p in s.parents && s.parents[p].uid == m.uid
  }

  lemma {:induction false} RunOneLife(s: State, steps: seq<Step>, p: Parent)
    requires OneLife(s, p) && Remove(p) !in steps
    ensures OneLife(Run(s, steps), p)
    decreases |steps|
  {
    if |steps| > 0 {
      assert steps[0] in steps;
      assert OneLife(Take(s, steps[0]), p);
      hide OneLife, Take;
      RunOneLife(Take(s, steps[0]), steps[1..], p);
    }
  }

  lemma OneLifeReachesAll(steps: seq<Step>, p: Parent)
    requires AllPlain(steps) && Remove(p) !in steps
    requires var s := Run(EMPTY, steps); p in s.parents && MarkOf(s, p) !in s.done
    ensures var s := Run(EMPTY, steps); Changed(s.apps, p, s.parents[p].generation) == Heirs(s.apps, p)
  {
    hide Plain, RevisionOf, Run, Wanted, Listed;
    var s := Run(EMPTY, steps);
    assert Inv(EMPTY);
    RunKeeps(EMPTY, steps);
    RunOneLife(EMPTY, steps, p);
    forall id | id in Heirs(s.apps, p) ensures id in Changed(s.apps, p, s.parents[p].generation) {
      PassedOverIff(s, p, id);
      assert Marks(s, id);
    }
  }

  function HeirOf(p: Parent): Id {
    Id(if Scope(p).Some? then p.namespace else "n", "a")
  }

  const ANSWERED: Calls := Calls(true, {})

  /** A parent is created, reconciled, deleted, and created anew: it starts again at generation 1, and the application
      carries its first life's stamp. */
  function SecondLife(p: Parent): seq<Step> {
    [Create(p), Put(HeirOf(p), p.name, p.name, p.name), Reconcile(p, ANSWERED), Remove(p), Create(p)]
  }

  lemma SecondLifeRuns(p: Parent)
    ensures var s := Run(EMPTY, SecondLife(p));
            && s.parents == map[p := Object(2, 1)] && s.done == {Mark(p, 1, 1)}
            && s.apps == map[HeirOf(p) := App(p.name, p.name, p.name, Some(RevisionOf(p, 1)))]
            && HeirOf(p) in Heirs(s.apps, p)
  {
    hide RevisionOf;
    var id, steps := HeirOf(p), SecondLife(p);
    var s1 := Take(EMPTY, steps[0]);
    var s2 := Take(s1, steps[1]);
    assert id in Changed(s2.apps, p, 1);
    var s3 := Take(s2, steps[2]);
    assert s3.apps == map[id := App(p.name, p.name, p.name, Some(RevisionOf(p, 1)))];
    var s4 := Take(s3, steps[3]);
    assert s4.parents == map[];
    var s5 := Take(s4, steps[4]);
    hide Take;
    assert Run(EMPTY, steps) == Run(s1, steps[1..]);
    assert Run(s1, steps[1..]) == Run(s2, steps[2..]) by { assert steps[1..][1..] == steps[2..]; }
    assert Run(s2, steps[2..]) == Run(s3, steps[3..]) by { assert steps[2..][1..] == steps[3..]; }
    assert Run(s3, steps[3..]) == Run(s4, steps[4..]) by { assert steps[3..][1..] == steps[4..]; }
    assert Run(s4, steps[4..]) == Run(s5, steps[5..]) by { assert steps[4..][1..] == steps[5..]; }
  }

  /** Over all runs, the fan-out never loses an update if and only if no parent is ever removed: one removal, of any parent,
      is enough to lose one. */
  lemma NeverMissesIff(mortal: set<Parent>)
    requires forall p :: p in mortal ==> Plain(p.name)
    ensures NeverMisses(mortal) <==> mortal == {}
  {
    hide Run, ReachesAll, AllPlain, Plain;
    if mortal == {} {
      forall steps | AllPlain(steps) && RemovesIn(steps, mortal) ensures ReachesAll(Run(EMPTY, steps)) {
        NoRemovalReachesAll(steps);
      }
    } else {
      var p :| p in mortal;
      MissesSecondLife(p);
      assert RemovesIn(SecondLife(p), mortal);
    }
  }

  lemma NoRemovalReachesAll(steps: seq<Step>)
    requires AllPlain(steps) && RemovesIn(steps, {})
    ensures ReachesAll(Run(EMPTY, steps))
  {
    hide Run, AllPlain, Changed, Heirs;
    var s := Run(EMPTY, steps);
    forall p | p in s.parents && MarkOf(s, p) !in s.done
      ensures Changed(s.apps, p, s.parents[p].generation) == Heirs(s.apps, p)
    {
      OneLifeReachesAll(steps, p);
    }
  }

  lemma MissesSecondLife(p: Parent)
    requires Plain(p.name)
    ensures AllPlain(SecondLife(p)) && !ReachesAll(Run(EMPTY, SecondLife(p)))
  {
    hide RevisionOf, Run, Plain;
    SecondLifeRuns(p);
    var s := Run(EMPTY, SecondLife(p));
    assert p in s.parents && MarkOf(s, p) !in s.done;
    assert HeirOf(p) !in Changed(s.apps, p, 1);
  }

  /** Over any run that does not remove the parent, of edits, removals and reconciles of parents of all kinds, which share one
      annotation, and of refused patches: the first reconcile at a generation changes every heir but those whose patch is
      refused, and an answered second one changes just these. */
  lemma FirstReconcileReachesAll(steps: seq<Step>, p: Parent, calls: Calls)
    requires AllPlain(steps) && Remove(p) !in steps
    requires var s := Run(EMPTY, steps); p in s.parents && MarkOf(s, p) !in s.done && calls.listed
    ensures var s := Run(EMPTY, steps);
            var g := s.parents[p].generation;
            var once := Stamped(s.apps, p, g, calls);
            && Reached(s.apps, p, g, calls) == Heirs(s.apps, p) - calls.refused
            && Changed(once, p, g) == Heirs(s.apps, p) * calls.refused
            && Changed(Stamped(once, p, g, ANSWERED), p, g) == {}
  {
    hide RevisionOf, Run, Plain, Heirs, Changed, Stamped;
    OneLifeReachesAll(steps, p);
    var s := Run(EMPTY, steps);
    var g := s.parents[p].generation;
    RetryReaches(s.apps, p, g, calls);
    RetryReaches(Stamped(s.apps, p, g, calls), p, g, ANSWERED);
  }
}
