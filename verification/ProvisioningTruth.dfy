/** Exactly when the script that ran is the script that is reported. */
module ProvisioningTruth {
  import opened Text
  import opened Wrappers
  import opened DatabaseModel
  import opened Provisioning
  import opened ProvisioningEdits
  import Credentials
  import Script = ProvisioningScript

  /** Only passes over these databases may stop between the ConfigMap and the Job. */
  ghost predicate TearsIn(steps: seq<Step>, torn: set<Id>) {
    forall step :: step in steps && step.Reconcile? && step.id !in torn ==> NoTear(step.oracle)
  }

  /** Over every run in which only passes over these databases are torn, the SQL that any database became Ready for is the
      SQL that its Job ran. */
  ghost predicate AlwaysRan(torn: set<Id>) {
    forall steps, prefix :: TearsIn(steps, torn) ==> HistoryOk(Run(FRESH, steps, prefix).history, true)
  }

  // The run that breaks it: a pass writes the edited ConfigMap and stops; the waiting Job of the old SQL runs the new
  // one; the edit is reverted, and the finished Job is stamped with the SQL that is asked for again.

  const GOOD: Oracle := Oracle(true, "secret", true, true, false, true, None, true)
  const TORN: Oracle := Oracle(true, "secret", true, true, false, false, None, true)

  function SpecWith(init: string): DbSpec {
    DbSpec("c", "s", "d", "d", "p", [init], "")
  }

  lemma {:induction false} JoinSnoc(lines: seq<string>, last: string)
    requires lines != []
    ensures Join(lines + [last]) == Join(lines) + "\n" + last
  {
    if |lines| == 1 {
      assert (lines + [last])[1..] == [last];
    } else {
      assert (lines + [last])[1..] == lines[1..] + [last];
      JoinSnoc(lines[1..], last);
    }
  }

  lemma DifferentScripts()
    ensures SqlOf(SpecWith("a")) != SqlOf(SpecWith("b"))
  {
    hide Join;
    var front := Script.AllLines(Script.Script("d", "d")) + ["\\c \"" + "d" + "\""];
    JoinSnoc(front, "a");
    JoinSnoc(front, "b");
    assert Script.AllLines(Script.Script("d", "d")) + (["\\c \"" + "d" + "\""] + ["a"]) == front + ["a"];
    assert Script.AllLines(Script.Script("d", "d")) + (["\\c \"" + "d" + "\""] + ["b"]) == front + ["b"];
    var x, y := Join(front + ["a"]), Join(front + ["b"]);
    assert x[|x| - 1] == 'a' && y[|y| - 1] == 'b';
  }

  predicate Completed(jobs: map<Id, Job>, job: Id) {
    job in jobs && jobs[job].phase == Complete
  }

  /** `s'` has the Jobs, ConfigMaps and history that such a pass, or a torn one, leaves. */
  ghost predicate Leaves(s: State, s': State, id: Id, job: Id, file: Id, sql: string, torn: bool) {
    var jobs := AppliedJobs(s.jobs, job, file, sql);
    && s'.configMaps == s.configMaps[file := sql]
    && s'.jobs == (if torn then s.jobs else jobs)
    && s'.history == if torn then s.history
                     else s.history + AppliedEvents(s.jobs, job, sql)
                          + if Completed(jobs, job) then [BecameReady(id, job, sql)] else []
  }

  /** What these passes do to the Job and its ConfigMap. */
  lemma PassSql(s: State, id: Id, prefix: string, torn: bool)
    requires id in s.databases && Credentials.ServerOf(s, id).Some? && s.databases[id].spec.deliver == ""
    ensures var s', job := Pass(s, id, prefix, if torn then TORN else GOOD), JobOf(s, id);
            Leaves(s, s', id, job, Id(job.namespace, ConfigMapName(id.name)), SqlOf(s.databases[id].spec), torn)
  {
    hide ValidIdentifier, SqlOf, PathOf, ProvisionWith, JobName, ConfigMapName, AppliedJobs, AppliedEvents;
    var db := s.databases[id];
    ProvisionSql(s, id, db, Credentials.ServerOf(s, id).value.namespace, PathOf(prefix, db.spec), SqlOf(db.spec), torn);
  }

  lemma ProvisionSql(s: State, id: Id, db: Db, namespace: string, path: string, sql: string, torn: bool)
    requires db.spec.deliver == ""
    ensures var s' := ProvisionWith(s, id, db, namespace, path, sql, if torn then TORN else GOOD).state;
            Leaves(s, s', id, Id(namespace, JobName(id.name)), Id(namespace, ConfigMapName(id.name)), sql, torn)
  {
    hide CredentialStage, SqlStage, AwaitStage, OwnerName, JobName, ConfigMapName, Leaves;
    var o := if torn then TORN else GOOD;
    var owner := Id(namespace, OwnerName(id.name));
    CredentialKeeps(s, path, owner, o);
    CredentialThrough(s, path, owner, o);
    var s1 := CredentialStage(s, path, owner, o).0;
    var job, file := Id(namespace, JobName(id.name)), Id(namespace, ConfigMapName(id.name));
    SqlLeaves(s1, id, db.(serverNamespace := namespace), job, file, sql, torn);
    LeavesSame(s, s1, ProvisionWith(s, id, db, namespace, path, sql, o).state, id, job, file, sql, torn);
  }

  lemma SqlLeaves(s: State, id: Id, db: Db, job: Id, file: Id, sql: string, torn: bool)
    requires db.spec.deliver == ""
    ensures var o := if torn then TORN else GOOD;
            var (s1, failed) := SqlStage(s, job, file, sql, o);
            && failed.Some? == torn
            && Leaves(s, if torn then s1 else AwaitStage(s1, id, db, job, sql, o).state, id, job, file, sql, torn)
  {
    hide AppliedJobs, AppliedEvents;
    assert forall h: seq<Event> :: h + [] == h;
  }

  lemma LeavesSame(s: State, s1: State, s': State, id: Id, job: Id, file: Id, sql: string, torn: bool)
    requires s1.jobs == s.jobs && s1.configMaps == s.configMaps && s1.history == s.history
    requires Leaves(s1, s', id, job, file, sql, torn)
    ensures Leaves(s, s', id, job, file, sql, torn)
  {
  }

  /** A database whose server is there, and a torn pass later. */
  ghost predicate Torn(s: State, id: Id, job: Id, a: string, b: string) {
    && id in s.databases && Credentials.ServerOf(s, id).Some? && JobOf(s, id) == job
    && var file := Id(job.namespace, ConfigMapName(id.name));
    && s.configMaps == map[file := b] && s.jobs == map[job := Job(a, file, None, Active)]
    && s.history == [JobCreated(job, a)]
  }

  lemma {:induction false} RunSnoc(s: State, steps: seq<Step>, step: Step, prefix: string)
    ensures Run(s, steps + [step], prefix) == Take(Run(s, steps, prefix), step, prefix)
    decreases |steps|
  {
    hide Take;
    if |steps| == 0 {
      assert (steps + [step])[1..] == [];
    } else {
      assert (steps + [step])[1..] == steps[1..] + [step];
      RunSnoc(Take(s, steps[0], prefix), steps[1..], step, prefix);
    }
  }

  lemma PutServes(s: State, id: Id, spec: DbSpec)
    requires s.servers == map[Id(id.namespace, "s") := Server("n", "h", "k")]
    requires spec.client == "c" && spec.server == "s" && spec.database == "d" && spec.user == "d"
    ensures var s' := Edited(s, id, spec);
            Credentials.ServerOf(s', id).Some? && JobOf(s', id) == Id("n", JobName(id.name))
  {
    hide JobName;
    assert ValidIdentifier("d");
  }

  /** Created for the first SQL, then torn at the second. */
  lemma TornPasses(c2: State, c3: State, c4: State, c5: State, id: Id, job: Id, file: Id, a: string, b: string)
    requires c2.jobs == map[] && c2.configMaps == map[] && c2.history == [] && Leaves(c2, c3, id, job, file, a, false)
    requires c4.jobs == c3.jobs && c4.configMaps == c3.configMaps && c4.history == c3.history
    requires Leaves(c4, c5, id, job, file, b, true)
    ensures c5.configMaps == map[file := b] && c5.jobs == map[job := Job(a, file, None, Active)]
    ensures c5.history == [JobCreated(job, a)]
  {
  }

  function ServerFor(id: Id): map<Id, Server> {
    map[Id(id.namespace, "s") := Server("n", "h", "k")]
  }

  lemma TornRun(prefix: string, id: Id) returns (steps: seq<Step>)
    ensures forall step :: step in steps && step.Reconcile? ==> step.id == id
    ensures var a, b := SqlOf(SpecWith("a")), SqlOf(SpecWith("b"));
            var s := Run(FRESH, steps, prefix);
            s.servers == ServerFor(id) && Torn(s, id, Id("n", JobName(id.name)), a, b)
  {
    hide Pass, SqlOf, JobName, ConfigMapName, Credentials.ServerOf, Finalize, JobStarts, JobEnds, WithClient, Leaves;
    var s0, s1 := Surroundings(ServerFor(id), map[]), Put(id, SpecWith("a"));
    var s2, s3, s4 := Reconcile(id, GOOD), Put(id, SpecWith("b")), Reconcile(id, TORN);
    var c1 := Take(FRESH, s0, prefix);
    var c2 := Take(c1, s1, prefix);
    PutServes(c1, id, SpecWith("a"));
    PassSql(c2, id, prefix, false);
    Credentials.PassKeepsSpecs(c2, id, prefix, GOOD);
    var c3 := Take(c2, s2, prefix);
    PutServes(c3, id, SpecWith("b"));
    var c4 := Take(c3, s3, prefix);
    PassSql(c4, id, prefix, true);
    Credentials.PassKeepsSpecs(c4, id, prefix, TORN);
    var c5 := Take(c4, s4, prefix);
    Credentials.SameUse(c4, c5, id, prefix);
    TornPasses(c2, c3, c4, c5, id, Id("n", JobName(id.name)), Id("n", ConfigMapName(id.name)), SqlOf(SpecWith("a")),
               SqlOf(SpecWith("b")));
    steps := [s0] + [s1] + [s2] + [s3] + [s4];
    RunFive(FRESH, s0, s1, s2, s3, s4, prefix);
  }

  lemma RunFive(s: State, s0: Step, s1: Step, s2: Step, s3: Step, s4: Step, prefix: string)
    ensures Run(s, [s0] + [s1] + [s2] + [s3] + [s4], prefix)
            == Take(Take(Take(Take(Take(s, s0, prefix), s1, prefix), s2, prefix), s3, prefix), s4, prefix)
  {
    hide Take;
    RunSnoc(s, [], s0, prefix);
    assert [] + [s0] == [s0];
    RunSnoc(s, [s0], s1, prefix);
    RunSnoc(s, [s0] + [s1], s2, prefix);
    RunSnoc(s, [s0] + [s1] + [s2], s3, prefix);
    RunSnoc(s, [s0] + [s1] + [s2] + [s3], s4, prefix);
  }

  /** The waiting Job runs the new SQL and completes. */
  lemma TornJobEnds(s: State, job: Id, file: Id, a: string, b: string)
    requires s.configMaps == map[file := b] && s.jobs == map[job := Job(a, file, None, Active)]
    requires s.history == [JobCreated(job, a)]
    ensures var c, done := JobEnds(JobStarts(s, job), job, true), Job(a, file, Some(b), Complete);
            && c.jobs == map[job := done] && c.history == [JobCreated(job, a), JobEnded(job, done)]
            && c.servers == s.servers && c.databases == s.databases
  {
    var c1 := JobStarts(s, job);
    assert c1.jobs == map[job := Job(a, file, Some(b), Active)];
  }

  lemma StaleReady(c: State, c': State, id: Id, job: Id, file: Id, done: Job)
    requires c.jobs == map[job := done] && done.phase == Complete
    requires c.history == [JobCreated(job, done.stamp), JobEnded(job, done)]
    requires Leaves(c, c', id, job, file, done.stamp, false)
    ensures c'.history == [JobCreated(job, done.stamp), JobEnded(job, done)] + [BecameReady(id, job, done.stamp)]
  {
  }

  /** From there the database becomes Ready for the old SQL. */
  lemma TornEnds(s: State, prefix: string, id: Id, job: Id, a: string, b: string)
    requires a == SqlOf(SpecWith("a")) && a != b && job == Id("n", JobName(id.name))
    requires s.servers == ServerFor(id) && Torn(s, id, job, a, b)
    ensures var s1 := Edited(JobEnds(JobStarts(s, job), job, true), id, SpecWith("a"));
            !HistoryOk(Pass(s1, id, prefix, GOOD).history, true)
  {
    hide Pass, SqlOf, JobName, ConfigMapName, Credentials.ServerOf, HistoryOk, JobStarts, JobEnds, Leaves;
    var file := Id("n", ConfigMapName(id.name));
    TornJobEnds(s, job, file, a, b);
    var c1, done := JobEnds(JobStarts(s, job), job, true), Job(a, file, Some(b), Complete);
    PutServes(c1, id, SpecWith("a"));
    var c2 := Edited(c1, id, SpecWith("a"));
    PassSql(c2, id, prefix, false);
    StaleReady(c2, Pass(c2, id, prefix, GOOD), id, job, file, done);
    NotRan(Pass(c2, id, prefix, GOOD).history, id, job, done);
  }

  lemma NotRan(h: seq<Event>, id: Id, job: Id, done: Job)
    requires h == [JobCreated(job, done.stamp), JobEnded(job, done)] + [BecameReady(id, job, done.stamp)]
    requires done.ran != Some(done.stamp)
    ensures !HistoryOk(h, true)
  {
    assert h[..2] == [JobCreated(job, done.stamp)] + [JobEnded(job, done)];
    LastOfGrown([JobCreated(job, done.stamp)], JobEnded(job, done), job);
    assert !Justified(h[..2], h[2], true);
  }

  /** For any database, a run whose torn pass is over that database breaks the property. */
  lemma TearBreaks(prefix: string, id: Id) returns (steps: seq<Step>)
    ensures TearsIn(steps, {id}) && !HistoryOk(Run(FRESH, steps, prefix).history, true)
  {
    hide Pass, SqlOf, JobName, ConfigMapName, HistoryOk, Torn, JobStarts, JobEnds, Finalize, WithClient;
    var job := Id("n", JobName(id.name));
    var front := TornRun(prefix, id);
    var s := Run(FRESH, front, prefix);
    DifferentScripts();
    TornEnds(s, prefix, id, job, SqlOf(SpecWith("a")), SqlOf(SpecWith("b")));
    var t1, t2, t3, t4 := PodStarts(job), JobFinishes(job, true), Put(id, SpecWith("a")), Reconcile(id, GOOD);
    RunSnoc(FRESH, front, t1, prefix);
    RunSnoc(FRESH, front + [t1], t2, prefix);
    RunSnoc(FRESH, front + [t1] + [t2], t3, prefix);
    RunSnoc(FRESH, front + [t1] + [t2] + [t3], t4, prefix);
    steps := front + [t1] + [t2] + [t3] + [t4];
  }

  /** The SQL that is reported is the SQL that ran, over all runs, exactly when no pass over any database may stop between
      the ConfigMap and the Job: tears in the passes over one database, whichever it is, are enough to break it. */
  lemma RanIffWhole(torn: set<Id>)
    ensures AlwaysRan(torn) <==> torn == {}
  {
    hide HistoryOk, Run, NoTear;
    if id :| id in torn {
      var steps := TearBreaks("", id);
      assert TearsIn(steps, torn);
      assert !AlwaysRan(torn);
    } else {
      forall steps, prefix | TearsIn(steps, torn) ensures HistoryOk(Run(FRESH, steps, prefix).history, true) {
        assert forall step :: step in steps ==> Whole(step);
        FreshInv();
        RunKeeps(FRESH, steps, prefix, true);
        InvHistory(Run(FRESH, steps, prefix), true);
      }
    }
  }

  lemma FreshInv()
    ensures Inv(FRESH, true)
  {
  }
}
