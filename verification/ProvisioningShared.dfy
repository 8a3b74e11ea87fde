/** Databases that share a provisioning Job: exactly when an unchanged script never has a second Job, and exactly when an
    edit is sure to reach its Job. */
module ProvisioningShared {
  import opened Text
  import opened Wrappers
  import opened DatabaseModel
  import opened Provisioning
  import opened ProvisioningEdits
  import opened ProvisioningTruth
  import Credentials
  import Names

  /** A database of this name on a server in this namespace asks for this SQL. */
  datatype JobUse = JobUse(namespace: string, name: string, sql: string) {
    function Job(): Id { Id(namespace, JobName(name)) }
  }

  function UseOf(s: State, id: Id): JobUse
    requires Credentials.ServerOf(s, id).Some?
  {
    JobUse(Credentials.ServerOf(s, id).value.namespace, id.name, SqlOf(s.databases[id].spec))
  }

  /** The step deletes no database, and a pass makes one of these uses. */
  predicate Asks(s: State, step: Step, uses: set<JobUse>) {
    !step.Delete? && (step.Reconcile? && Credentials.ServerOf(s, step.id).Some? ==> UseOf(s, step.id) in uses)
  }

  predicate AllAsk(s: State, steps: seq<Step>, prefix: string, uses: set<JobUse>)
    decreases |steps|
  {
    |steps| > 0 ==> Asks(s, steps[0], uses) && AllAsk(Take(s, steps[0], prefix), steps[1..], prefix, uses)
  }

  /** No Job is created a second time. */
  ghost predicate CreatedOnce(h: seq<Event>) {
    forall i, j :: 0 <= i < j < |h| && h[i].JobCreated? && h[j].JobCreated? ==> h[i].job != h[j].job
  }

  /** Databases that share a Job ask for the same SQL. */
  ghost predicate JobsAgree(uses: set<JobUse>) {
    forall u, v :: u in uses && v in uses && u.Job() == v.Job() ==> u.sql == v.sql
  }

  /** Every database is put once. */
  predicate NoEdits(steps: seq<Step>) {
    forall i, j :: 0 <= i < j < |steps| && steps[i].Put? && steps[j].Put? ==> steps[i].id != steps[j].id
  }

  ghost predicate AlwaysOneJob(uses: set<JobUse>, edits: bool) {
    forall steps, prefix :: AllAsk(FRESH, steps, prefix, uses) && (edits || NoEdits(steps)) ==>
      CreatedOnce(Run(FRESH, steps, prefix).history)
  }

  /** Some database can ask for the SQL. */
  ghost predicate Askable(u: JobUse) {
    u.namespace != "" && exists spec :: AsksFor(spec, u.sql)
  }

  predicate AsksFor(spec: DbSpec, sql: string) {
    ValidIdentifier(spec.database) && ValidIdentifier(spec.user) && SqlOf(spec) == sql
  }

  // ---- no Job is deleted ----

  ghost predicate NoDrops(h: seq<Event>, h': seq<Event>) {
    h <= h' && forall i :: |h| <= i < |h'| ==> !h'[i].JobDeleted?
  }

  lemma StartsDropNone(s: State, job: Id)
    ensures NoDrops(s.history, JobStarts(s, job).history)
  {
  }

  lemma EndsDropNone(s: State, job: Id, succeeds: bool)
    ensures NoDrops(s.history, JobEnds(s, job, succeeds).history)
  {
  }

  lemma SqlDropsNone(s: State, job: Id, file: Id, sql: string, o: Oracle)
    requires Current(s, job, sql)
    ensures NoDrops(s.history, SqlStage(s, job, file, sql, o).0.history)
  {
  }

  lemma AwaitDropsNone(s: State, id: Id, db: Db, job: Id, sql: string, o: Oracle)
    ensures NoDrops(s.history, AwaitStage(s, id, db, job, sql, o).state.history)
  {
    hide JobStarts, JobEnds, JobOutcome;
    if o.ends.Some? {
      StartsDropNone(s, job);
      EndsDropNone(JobStarts(s, job), job, o.ends.value);
    }
  }

  lemma ProvisionDropsNone(s: State, id: Id, db: Db, namespace: string, path: string, sql: string, o: Oracle)
    requires Current(s, Id(namespace, JobName(id.name)), sql)
    ensures NoDrops(s.history, ProvisionWith(s, id, db, namespace, path, sql, o).state.history)
  {
    hide CredentialStage, SqlStage, AwaitStage, OwnerName, JobName, ConfigMapName;
    var owner := Id(namespace, OwnerName(id.name));
    CredentialKeeps(s, path, owner, o);
    var s1 := CredentialStage(s, path, owner, o).0;
    var job, file := Id(namespace, JobName(id.name)), Id(namespace, ConfigMapName(id.name));
    SqlDropsNone(s1, job, file, sql, o);
    var s2 := SqlStage(s1, job, file, sql, o).0;
    AwaitDropsNone(s2, id, db.(serverNamespace := namespace), job, sql, o);
  }

  lemma PassDropsNone(s: State, id: Id, prefix: string, o: Oracle)
    requires Credentials.ServerOf(s, id).Some? ==> Current(s, JobOf(s, id), SqlOf(s.databases[id].spec))
    ensures NoDrops(s.history, Pass(s, id, prefix, o).history)
  {
    hide ProvisionWith, ValidIdentifier, SqlOf, PathOf, JobName, Current;
    if id in s.databases && SpecProblem(s, id.namespace, s.databases[id].spec).None? {
      var db := s.databases[id];
      ProvisionDropsNone(s, id, db, FindServer(s, id.namespace, db.spec).value.namespace, PathOf(prefix, db.spec),
                         SqlOf(db.spec), o);
    }
  }

  /** Every Job is stamped with the SQL of a use that has it, and none has been deleted. */
  ghost predicate Stamped(s: State, uses: set<JobUse>) {
    && (forall job :: job in s.jobs ==> exists u :: u in uses && u.Job() == job && u.sql == s.jobs[job].stamp)
    && (forall e :: e in s.history ==> !e.JobDeleted?)
  }

  lemma StampedCurrent(s: State, uses: set<JobUse>, u: JobUse)
    requires Stamped(s, uses) && JobsAgree(uses) && u in uses
    ensures Current(s, u.Job(), u.sql)
  {
    hide JobName;
  }

  /** The Jobs after a step: those that were there, stamped as before, and perhaps the one that was asked for. */
  lemma JobsAfter(s: State, step: Step, prefix: string, uses: set<JobUse>, job: Id)
    requires Stamped(s, uses) && JobsAgree(uses) && Asks(s, step, uses) && job in Take(s, step, prefix).jobs
    ensures exists u :: u in uses && u.Job() == job && u.sql == Take(s, step, prefix).jobs[job].stamp
  {
    hide Pass, SqlOf, JobName, Credentials.ServerOf, Finalize, JobStarts, JobEnds, WithClient;
    var s' := Take(s, step, prefix);
    match step
    case Reconcile(id, o) =>
      if Credentials.ServerOf(s, id).Some? && JobOf(s, id) == job {
        StampedCurrent(s, uses, UseOf(s, id));
        PassCurrent(s, id, prefix, o);
        assert UseOf(s, id).Job() == job;
      } else {
        PassSame(s, id, prefix, o, job);
        SameStampBoth(s, s', job);
      }
    case PodStarts(other) =>
      StartsSame(s, other, job);
      SameStampBoth(s, s', job);
    case JobFinishes(other, succeeds) =>
      EndsSame(s, other, succeeds, job);
      SameStampBoth(s, s', job);
    case _ =>
  }

  lemma TakeDropsNone(s: State, step: Step, prefix: string, uses: set<JobUse>)
    requires Stamped(s, uses) && JobsAgree(uses) && Asks(s, step, uses)
    ensures NoDrops(s.history, Take(s, step, prefix).history)
  {
    hide Pass, SqlOf, JobName, Credentials.ServerOf, Finalize, JobStarts, JobEnds, WithClient, Stamped, JobsAgree;
    match step
    case Reconcile(id, o) =>
      if Credentials.ServerOf(s, id).Some? { StampedCurrent(s, uses, UseOf(s, id)); }
      PassDropsNone(s, id, prefix, o);
    case PodStarts(other) => StartsDropNone(s, other);
    case JobFinishes(other, succeeds) => EndsDropNone(s, other, succeeds);
    case _ =>
  }

  lemma TakeStamped(s: State, step: Step, prefix: string, uses: set<JobUse>)
    requires Stamped(s, uses) && JobsAgree(uses) && Asks(s, step, uses)
    ensures Stamped(Take(s, step, prefix), uses)
  {
    hide Take, JobsAgree, Asks, JobName;
    TakeDropsNone(s, step, prefix, uses);
    var s' := Take(s, step, prefix);
    forall job | job in s'.jobs ensures exists u :: u in uses && u.Job() == job && u.sql == s'.jobs[job].stamp {
      JobsAfter(s, step, prefix, uses, job);
    }
    forall i | 0 <= i < |s'.history| ensures !s'.history[i].JobDeleted? {
      if i < |s.history| { assert s'.history[i] == s.history[i]; }
    }
  }

  lemma {:induction false} RunStamped(s: State, steps: seq<Step>, prefix: string, uses: set<JobUse>)
    requires Stamped(s, uses) && JobsAgree(uses) && AllAsk(s, steps, prefix, uses)
    ensures Stamped(Run(s, steps, prefix), uses)
    decreases |steps|
  {
    hide Stamped, Take, Asks, JobsAgree;
    if |steps| > 0 {
      TakeStamped(s, steps[0], prefix, uses);
      RunStamped(Take(s, steps[0], prefix), steps[1..], prefix, uses);
    }
  }

  lemma {:induction false} HasLast(h: seq<Event>, i: nat, job: Id)
    requires i < |h| && About(h[i], job)
    ensures var last := LastAbout(h, job); last.Some? && last.value in h
  {
    if !About(h[|h| - 1], job) { HasLast(h[..|h| - 1], i, job); }
  }

  lemma LaterIsAnother(h: seq<Event>, i: nat, j: nat)
    requires i < j < |h| && h[i].JobCreated? && h[j].JobCreated?
    requires Justified(h[..j], h[j], false) && forall e :: e in h ==> !e.JobDeleted?
    ensures h[i].job != h[j].job
  {
    hide LastAbout;
    assert forall e :: e in h[..j] ==> e in h;
    if About(h[..j][i], h[j].job) { HasLast(h[..j], i, h[j].job); }
  }

  /** Jobs live one after the other, so without a deletion there is no second one. */
  lemma NoDeletionNoSecond(h: seq<Event>)
    requires HistoryOk(h, false) && forall e :: e in h ==> !e.JobDeleted?
    ensures CreatedOnce(h)
  {
    hide Justified;
    forall i, j | 0 <= i < j < |h| && h[i].JobCreated? && h[j].JobCreated? ensures h[i].job != h[j].job {
      assert Justified(h[..j], h[j], false);
      LaterIsAnother(h, i, j);
    }
  }

  // ---- the run that breaks it ----

  function Served(u: JobUse): map<Id, Server> {
    map[Id("x", "s") := Server(u.namespace, "h", "k"), Id("y", "s") := Server(u.namespace, "h", "k")]
  }

  function On(spec: DbSpec): DbSpec {
    spec.(client := "c", server := "s", openbaoPath := "p", deliver := "")
  }

  lemma SameSql(spec: DbSpec)
    ensures SqlOf(On(spec)) == SqlOf(spec)
  {
    hide Join;
  }

  /** Two databases in two namespaces, whose servers live in one. */
  ghost predicate TwoServed(s: State, u: JobUse, v: JobUse) {
    var a, b := Id("x", u.name), Id("y", v.name);
    && Credentials.ServerOf(s, a).Some? && UseOf(s, a) == u && s.databases[a].spec.deliver == ""
    && Credentials.ServerOf(s, b).Some? && UseOf(s, b) == v && s.databases[b].spec.deliver == ""
  }

  lemma Serves(s: State, id: Id, spec: DbSpec, u: JobUse)
    requires Served(u) == s.servers && (id.namespace == "x" || id.namespace == "y") && id.name == u.name && u.namespace != ""
    requires id in s.databases && s.databases[id].spec == On(spec) && AsksFor(spec, u.sql)
    ensures Credentials.ServerOf(s, id).Some? && UseOf(s, id) == u
  {
    SameSql(spec);
    hide SqlOf, ValidIdentifier;
  }

  lemma TwoCreated(u: JobUse, v: JobUse, specU: DbSpec, specV: DbSpec, prefix: string) returns (steps: seq<Step>)
    requires u.namespace == v.namespace != "" && AsksFor(specU, u.sql) && AsksFor(specV, v.sql)
    ensures AllAsk(FRESH, steps, prefix, {}) && NoEdits(steps)
    ensures var s := Run(FRESH, steps, prefix);
            TwoServed(s, u, v) && s.jobs == map[] && s.history == []
  {
    hide Pass, SqlOf, Finalize, JobStarts, JobEnds, WithClient, AsksFor, Credentials.ServerOf;
    var a, b := Id("x", u.name), Id("y", v.name);
    var s0, s1, s2 := Surroundings(Served(u), map[]), Put(a, On(specU)), Put(b, On(specV));
    var c1 := Take(FRESH, s0, prefix);
    var c2 := Take(c1, s1, prefix);
    var c3 := Take(c2, s2, prefix);
    assert Served(u) == Served(v);
    Serves(c3, a, specU, u);
    Serves(c3, b, specV, v);
    steps := [s0] + [s1] + [s2];
    RunThree(FRESH, s0, s1, s2, prefix);
    AskThree(FRESH, s0, s1, s2, prefix, {});
  }

  lemma RunThree(s: State, s0: Step, s1: Step, s2: Step, prefix: string)
    ensures Run(s, [s0] + [s1] + [s2], prefix) == Take(Take(Take(s, s0, prefix), s1, prefix), s2, prefix)
  {
    hide Take;
    RunSnoc(s, [], s0, prefix);
    assert [] + [s0] == [s0];
    RunSnoc(s, [s0], s1, prefix);
    RunSnoc(s, [s0] + [s1], s2, prefix);
  }

  lemma {:induction false} AskSnoc(s: State, steps: seq<Step>, step: Step, prefix: string, uses: set<JobUse>)
    requires AllAsk(s, steps, prefix, uses) && Asks(Run(s, steps, prefix), step, uses)
    ensures AllAsk(s, steps + [step], prefix, uses)
    decreases |steps|
  {
    hide Take, Asks;
    if |steps| == 0 {
      assert (steps + [step])[1..] == [];
    } else {
      assert (steps + [step])[1..] == steps[1..] + [step];
      AskSnoc(Take(s, steps[0], prefix), steps[1..], step, prefix, uses);
    }
  }

  lemma AskThree(s: State, s0: Step, s1: Step, s2: Step, prefix: string, uses: set<JobUse>)
    requires Asks(s, s0, uses) && Asks(Take(s, s0, prefix), s1, uses)
    requires Asks(Take(Take(s, s0, prefix), s1, prefix), s2, uses)
    ensures AllAsk(s, [s0] + [s1] + [s2], prefix, uses)
  {
    hide Take, Asks;
    RunSnoc(s, [], s0, prefix);
    assert [] + [s0] == [s0];
    RunSnoc(s, [s0], s1, prefix);
    AskSnoc(s, [], s0, prefix, uses);
    AskSnoc(s, [s0], s1, prefix, uses);
    AskSnoc(s, [s0] + [s1], s2, prefix, uses);
  }

  lemma {:induction false} AskMore(s: State, steps: seq<Step>, prefix: string, some: set<JobUse>, all: set<JobUse>)
    requires AllAsk(s, steps, prefix, some) && some <= all
    ensures AllAsk(s, steps, prefix, all)
    decreases |steps|
  {
    hide Take;
    if |steps| > 0 { AskMore(Take(s, steps[0], prefix), steps[1..], prefix, some, all); }
  }

  lemma {:induction false} AskJoin(s: State, front: seq<Step>, back: seq<Step>, prefix: string, uses: set<JobUse>)
    requires AllAsk(s, front, prefix, uses) && AllAsk(Run(s, front, prefix), back, prefix, uses)
    ensures AllAsk(s, front + back, prefix, uses)
    ensures Run(s, front + back, prefix) == Run(Run(s, front, prefix), back, prefix)
    decreases |front|
  {
    hide Take, Asks;
    if |front| == 0 {
      assert front + back == back;
    } else {
      assert (front + back)[1..] == front[1..] + back;
      AskJoin(Take(s, front[0], prefix), front[1..], back, prefix, uses);
    }
  }

  lemma ServedIsThere(s: State, id: Id)
    requires Credentials.ServerOf(s, id).Some?
    ensures id in s.databases
  {
  }

  /** A pass over one of the two databases leaves the Job, by what it was stamped with; and both are served as before. */
  lemma ServedPass(s: State, u: JobUse, v: JobUse, second: bool, prefix: string)
    requires TwoServed(s, u, v)
    ensures var id, w := if second then Id("y", v.name) else Id("x", u.name), if second then v else u;
            var s' := Pass(s, id, prefix, GOOD);
            TwoServed(s', u, v) && Leaves(s, s', id, w.Job(), Id(w.namespace, ConfigMapName(id.name)), w.sql, false)
  {
    hide SqlOf, JobName, ConfigMapName, Pass, Leaves, Credentials.ServerOf;
    var id := if second then Id("y", v.name) else Id("x", u.name);
    ServedIsThere(s, Id("x", u.name));
    ServedIsThere(s, Id("y", v.name));
    PassSql(s, id, prefix, false);
    Credentials.PassKeepsSpecs(s, id, prefix, GOOD);
    Credentials.SameUse(s, Pass(s, id, prefix, GOOD), Id("x", u.name), prefix);
    Credentials.SameUse(s, Pass(s, id, prefix, GOOD), Id("y", v.name), prefix);
  }

  lemma Replaces(s: State, s': State, id: Id, job: Id, file: Id, sql: string)
    requires Leaves(s, s', id, job, file, sql, false)
    requires job in s.jobs ==> s.jobs[job].phase == Active
    ensures job !in s.jobs ==> s'.history == s.history + [JobCreated(job, sql)] && job in s'.jobs
                               && s'.jobs[job].stamp == sql && s'.jobs[job].phase == Active
    ensures job in s.jobs && s.jobs[job].stamp != sql ==> s'.history == s.history + [JobDeleted(job)] && job !in s'.jobs
  {
    assert s.history + AppliedEvents(s.jobs, job, sql) + [] == s.history + AppliedEvents(s.jobs, job, sql);
  }

  /** First one database's Job, then the other's twice: the first deletes it, the second creates its own. */
  lemma TakesTheJob(s: State, u: JobUse, v: JobUse, prefix: string) returns (steps: seq<Step>)
    requires TwoServed(s, u, v) && u.Job() == v.Job() && u.sql != v.sql
    requires u.Job() in s.jobs && s.jobs[u.Job()].stamp == u.sql && s.jobs[u.Job()].phase == Active
    ensures AllAsk(s, steps, prefix, {v}) && forall i :: 0 <= i < |steps| ==> !steps[i].Put?
    ensures var s', job := Run(s, steps, prefix), u.Job();
            && TwoServed(s', u, v) && job in s'.jobs && s'.jobs[job].stamp == v.sql && s'.jobs[job].phase == Active
            && s'.history == s.history + [JobDeleted(job)] + [JobCreated(job, v.sql)]
  {
    hide SqlOf, JobName, ConfigMapName, Pass, Leaves, Credentials.ServerOf, JobStarts, JobEnds, Finalize, WithClient;
    var b := Id("y", v.name);
    var x := Reconcile(b, GOOD);
    var file := Id(v.namespace, ConfigMapName(b.name));
    ServedPass(s, u, v, true, prefix);
    var s1 := Pass(s, b, prefix, GOOD);
    Replaces(s, s1, b, v.Job(), file, v.sql);
    ServedPass(s1, u, v, true, prefix);
    Replaces(s1, Pass(s1, b, prefix, GOOD), b, v.Job(), file, v.sql);
    steps := [x] + [x];
    RunSnoc(s, [], x, prefix);
    assert [] + [x] == [x];
    RunSnoc(s, [x], x, prefix);
    AskSnoc(s, [], x, prefix, {v});
    AskSnoc(s, [x], x, prefix, {v});
  }

  /** Two databases are put, the first has its Job created, and `back` takes the Job over. */
  lemma TakenOver(u: JobUse, v: JobUse, prefix: string) returns (front: seq<Step>, back: seq<Step>)
    requires Askable(u) && Askable(v) && u.Job() == v.Job() && u.sql != v.sql
    ensures AllAsk(FRESH, front, prefix, {}) && NoEdits(front) && forall i :: 0 <= i < |back| ==> !back[i].Put?
    ensures var s, a, job := Run(FRESH, front, prefix), Id("x", u.name), u.Job();
            var s1 := Pass(s, a, prefix, GOOD);
            && Credentials.ServerOf(s, a).Some? && UseOf(s, a) == u && AllAsk(s1, back, prefix, {v})
            && s1.history == [JobCreated(job, u.sql)]
            && var s2 := Run(s1, back, prefix);
               && TwoServed(s2, u, v) && job in s2.jobs && s2.jobs[job].stamp == v.sql && s2.jobs[job].phase == Active
               && s2.history == [JobCreated(job, u.sql)] + [JobDeleted(job)] + [JobCreated(job, v.sql)]
  {
    hide SqlOf, JobName, ConfigMapName, Pass, Leaves, Credentials.ServerOf, JobStarts, JobEnds, Finalize, WithClient, AsksFor,
      TwoServed;
    var specU :| AsksFor(specU, u.sql);
    var specV :| AsksFor(specV, v.sql);
    var a := Id("x", u.name);
    front := TwoCreated(u, v, specU, specV, prefix);
    var s := Run(FRESH, front, prefix);
    TwoServedUses(s, u, v);
    ServedPass(s, u, v, false, prefix);
    var s1 := Pass(s, a, prefix, GOOD);
    Replaces(s, s1, a, u.Job(), Id(u.namespace, ConfigMapName(a.name)), u.sql);
    assert [] + [JobCreated(u.Job(), u.sql)] == [JobCreated(u.Job(), u.sql)];
    back := TakesTheJob(s1, u, v, prefix);
  }

  /** Two databases with one Job and different SQL: the Job is created, deleted, and created again, with no edit. */
  lemma SharedJobBreaks(u: JobUse, v: JobUse, uses: set<JobUse>, edits: bool)
    requires Askable(u) && Askable(v) && u in uses && v in uses && u.Job() == v.Job() && u.sql != v.sql
    ensures !AlwaysOneJob(uses, edits)
  {
    hide SqlOf, JobName, ConfigMapName, Pass, Leaves, Credentials.ServerOf, JobStarts, JobEnds, Finalize, WithClient, AsksFor,
      TwoServed, AlwaysOneJob, Askable;
    var prefix := "";
    var front, back := TakenOver(u, v, prefix);
    var first := Reconcile(Id("x", u.name), GOOD);
    RunSnoc(FRESH, front, first, prefix);
    AskMore(FRESH, front, prefix, {}, uses);
    AskSnoc(FRESH, front, first, prefix, uses);
    AskMore(Run(FRESH, front + [first], prefix), back, prefix, {v}, uses);
    AskJoin(FRESH, front + [first], back, prefix, uses);
    CreatedAgain(u.Job(), u.sql, v.sql);
    assert NoEdits(front + [first] + back);
    BreaksOnce(front + [first] + back, prefix, uses, edits);
  }

  lemma TwoServedUses(s: State, u: JobUse, v: JobUse)
    requires TwoServed(s, u, v)
    ensures Credentials.ServerOf(s, Id("x", u.name)).Some? && UseOf(s, Id("x", u.name)) == u
    ensures Credentials.ServerOf(s, Id("y", v.name)).Some? && UseOf(s, Id("y", v.name)) == v
  {
  }

  lemma CreatedAgain(job: Id, a: string, b: string)
    ensures !CreatedOnce([JobCreated(job, a)] + [JobDeleted(job)] + [JobCreated(job, b)])
  {
    var h := [JobCreated(job, a)] + [JobDeleted(job)] + [JobCreated(job, b)];
    assert h[0] == JobCreated(job, a) && h[2] == JobCreated(job, b);
  }

  lemma BreaksOnce(steps: seq<Step>, prefix: string, uses: set<JobUse>, edits: bool)
    requires AllAsk(FRESH, steps, prefix, uses) && NoEdits(steps) && !CreatedOnce(Run(FRESH, steps, prefix).history)
    ensures !AlwaysOneJob(uses, edits)
  {
    hide Run, AllAsk, NoEdits, CreatedOnce;
  }

  /** Over all runs in which no database is deleted, and also over those of them in which none is edited, no Job is created
      a second time if and only if no two uses have one server namespace and one Job name but different SQL. */
  lemma OneJobIff(uses: set<JobUse>, edits: bool)
    requires forall u :: u in uses ==> Askable(u)
    ensures AlwaysOneJob(uses, edits) <==> JobsAgree(uses)
  {
    hide Run, HistoryOk, Askable, JobName;
    if JobsAgree(uses) {
      forall steps, prefix | AllAsk(FRESH, steps, prefix, uses) ensures CreatedOnce(Run(FRESH, steps, prefix).history) {
        RunStamped(FRESH, steps, prefix, uses);
        ReadyMeansCurrentSql(steps, prefix);
        NoDeletionNoSecond(Run(FRESH, steps, prefix).history);
      }
    } else {
      var u, v :| u in uses && v in uses && u.Job() == v.Job() && u.sql != v.sql;
      SharedJobBreaks(u, v, uses, edits);
    }
  }

  // ---- an edit reaches its Job ----

  /** Nobody else's Job, with other SQL, is this one. */
  ghost predicate Alone(u: JobUse, uses: set<JobUse>) {
    forall v :: v in uses && v.Job() == u.Job() ==> v.sql == u.sql
  }

  /** The use is made before the first and before the second pass, the passes get through, and the steps between them make
      uses of the set. */
  ghost predicate Reaching(s: State, id: Id, u: JobUse, prefix: string, o1: Oracle, between: seq<Step>, o2: Oracle,
                           uses: set<JobUse>) {
    var s1 := Pass(s, id, prefix, o1);
    var s2 := Run(s1, between, prefix);
    && Through(o1) && Through(o2) && AllAsk(s1, between, prefix, uses)
    && Credentials.ServerOf(s, id).Some? && UseOf(s, id) == u
    && Credentials.ServerOf(s2, id).Some? && UseOf(s2, id) == u
  }

  predicate HasJob(s: State, u: JobUse) {
    u.Job() in s.jobs && s.jobs[u.Job()].stamp == u.sql
  }

  ghost predicate AlwaysReaches(u: JobUse, uses: set<JobUse>) {
    forall s, id, prefix, o1, between, o2 :: Reaching(s, id, u, prefix, o1, between, o2, uses) ==>
      HasJob(Pass(Run(Pass(s, id, prefix, o1), between, prefix), id, prefix, o2), u)
  }

  lemma {:induction false} AloneIsQuiet(s: State, steps: seq<Step>, prefix: string, u: JobUse, uses: set<JobUse>)
    requires AllAsk(s, steps, prefix, uses) && Alone(u, uses)
    ensures AllQuiet(s, steps, prefix, u.Job(), u.sql)
    decreases |steps|
  {
    hide Take, SqlOf, Credentials.ServerOf, JobName;
    if |steps| > 0 {
      var step := steps[0];
      if step.Reconcile? && Credentials.ServerOf(s, step.id).Some? {
        assert UseOf(s, step.id).Job() == JobOf(s, step.id);
      }
      AloneIsQuiet(Take(s, step, prefix), steps[1..], prefix, u, uses);
    }
  }

  lemma AloneReaches(s: State, id: Id, u: JobUse, prefix: string, o1: Oracle, between: seq<Step>, o2: Oracle,
                     uses: set<JobUse>)
    requires Reaching(s, id, u, prefix, o1, between, o2, uses) && Alone(u, uses)
    ensures HasJob(Pass(Run(Pass(s, id, prefix, o1), between, prefix), id, prefix, o2), u)
  {
    hide Pass, Run, AllQuiet, Credentials.ServerOf, SqlOf, JobName, Alone, AllAsk;
    var s1 := Pass(s, id, prefix, o1);
    assert u.Job() == JobOf(s, id);
    AloneIsQuiet(s1, between, prefix, u, uses);
    assert u.Job() == JobOf(Run(s1, between, prefix), id);
    ServedIsThere(s, id);
    ServedIsThere(Run(s1, between, prefix), id);
    EditReachesJob(s, id, prefix, o1, between, o2);
  }

  lemma TakenIsMissed(u: JobUse, v: JobUse, uses: set<JobUse>)
    requires Askable(u) && Askable(v) && v in uses && u.Job() == v.Job() && u.sql != v.sql
    ensures !AlwaysReaches(u, uses)
  {
    hide SqlOf, JobName, ConfigMapName, Pass, Leaves, Credentials.ServerOf, JobStarts, JobEnds, Finalize, WithClient, AsksFor,
      TwoServed, Askable;
    var prefix, a := "", Id("x", u.name);
    var front, back := TakenOver(u, v, prefix);
    var s := Run(FRESH, front, prefix);
    var s1 := Pass(s, a, prefix, GOOD);
    AskMore(s1, back, prefix, {v}, uses);
    var s2 := Run(s1, back, prefix);
    TwoServedUses(s2, u, v);
    ServedPass(s2, u, v, false, prefix);
    Replaces(s2, Pass(s2, a, prefix, GOOD), a, u.Job(), Id(u.namespace, ConfigMapName(a.name)), u.sql);
    assert Reaching(s, a, u, prefix, GOOD, back, GOOD, uses);
  }

  /** An edit reaches a Job within two passes that get through, whatever Job there was before and whatever runs between
      them, if and only if no other use with different SQL has the Job. */
  lemma EditReachesIff(u: JobUse, uses: set<JobUse>)
    requires Askable(u) && forall v :: v in uses ==> Askable(v)
    ensures AlwaysReaches(u, uses) <==> Alone(u, uses)
  {
    hide Reaching, HasJob, Pass, Run, Askable, JobName;
    if Alone(u, uses) {
      forall s, id, prefix, o1, between, o2 | Reaching(s, id, u, prefix, o1, between, o2, uses)
        ensures HasJob(Pass(Run(Pass(s, id, prefix, o1), between, prefix), id, prefix, o2), u)
      {
        AloneReaches(s, id, u, prefix, o1, between, o2, uses);
      }
    } else {
      var v :| v in uses && v.Job() == u.Job() && v.sql != u.sql;
      TakenIsMissed(u, v, uses);
    }
  }

  // ---- which names share a Job ----

  const ROOM: nat := MAX_IDENTIFIER - |"dbprov-"|

  /** What Kubernetes admits as the name of an object starts and ends with a letter or a digit. */
  predicate Named(m: string) {
    m != "" && m[0] != '-' && m[|m| - 1] != '-'
  }

  lemma {:induction false} StripBehind(front: string, m: string)
    requires m != "" && m[0] != '-'
    ensures RStrip(front + m, Names.DASH) == front + RStrip(m, Names.DASH)
  {
    if m[|m| - 1] == '-' {
      assert (front + m)[..|front + m| - 1] == front + m[..|m| - 1];
      StripBehind(front, m[..|m| - 1]);
    }
  }

  lemma JobNameOf(m: string)
    requires Named(m)
    ensures JobName(m) == "dbprov-" + if |m| <= ROOM then m else RStrip(m[..ROOM], Names.DASH)
  {
    if |m| <= ROOM {
      StripBehind("dbprov-", m);
    } else {
      assert ("dbprov-" + m)[..MAX_IDENTIFIER] == "dbprov-" + m[..ROOM];
      StripBehind("dbprov-", m[..ROOM]);
    }
  }

  /** Short names share a Job name with themselves only. Long names share it when they differ only behind the cut at 63
      characters, and a short name shares it with the long ones whose cut, without dashes at its end, it is. */
  lemma SharedJobNames(m: string, n: string)
    requires Named(m) && Named(n)
    ensures |m| <= ROOM && |n| <= ROOM ==> (JobName(m) == JobName(n) <==> m == n)
    ensures |m| >= ROOM && |n| >= ROOM ==> (JobName(m) == JobName(n) <==> m[..ROOM] == n[..ROOM])
    ensures |m| < ROOM < |n| ==> (JobName(m) == JobName(n) <==> m == RStrip(n[..ROOM], Names.DASH))
  {
    hide JobName, RStrip;
    JobNameOf(m);
    JobNameOf(n);
    SameBehind("dbprov-", m, n);
    if |m| >= ROOM && |n| >= ROOM {
      var a, b := RStrip(m[..ROOM], Names.DASH), RStrip(n[..ROOM], Names.DASH);
      assert |m| == ROOM ==> m[..ROOM] == m && a == m;
      assert |n| == ROOM ==> n[..ROOM] == n && b == n;
      if a == b { StrippedPrefix(m[..ROOM], n[..ROOM]); }
      SameBehind("dbprov-", a, b);
    } else if |m| < ROOM < |n| {
      SameBehind("dbprov-", m, RStrip(n[..ROOM], Names.DASH));
    }
  }

  /** Strings of one length are equal if they are equal without the dashes at their ends. */
  lemma StrippedPrefix(a: string, b: string)
    requires |a| == |b| && RStrip(a, Names.DASH) == RStrip(b, Names.DASH)
    ensures a == b
  {
    hide RStrip;
    var r := RStrip(a, Names.DASH);
    forall i | 0 <= i < |a| ensures a[i] == b[i] {
      if i < |r| { assert r[i] == a[i] && r[i] == b[i]; }
    }
  }

  /** Two databases called `app`, in two namespaces with one server namespace, that differ in their initial SQL. */
  lemma NamesakesLoseTheirJobs()
    ensures var u, v := JobUse("db", "app", SqlOf(SpecWith("a"))), JobUse("db", "app", SqlOf(SpecWith("b")));
            !AlwaysOneJob({u, v}, false) && !AlwaysReaches(u, {v})
  {
    hide SqlOf, JobName, AlwaysOneJob, AlwaysReaches;
    var u, v := JobUse("db", "app", SqlOf(SpecWith("a"))), JobUse("db", "app", SqlOf(SpecWith("b")));
    DifferentScripts();
    assert AsksFor(SpecWith("a"), u.sql) && AsksFor(SpecWith("b"), v.sql);
    SharedJobBreaks(u, v, {u, v}, false);
    TakenIsMissed(u, v, {v});
  }
}
