/** Provisioning: a database is called Ready only for the SQL that it asks for at the time. */
module Provisioning {
  import opened Text
  import opened Wrappers
  import opened DatabaseModel

  // ---- the life of a Job, as the history shows it ----

  predicate About(e: Event, job: Id) {
    match e
    case JobCreated(j, _) => j == job
    case JobDeleted(j) => j == job
    case JobEnded(j, _) => j == job
    case BecameReady(_, _, _) => false
  }

  /** The last thing that happened to the Job. */
  function LastAbout(h: seq<Event>, job: Id): Option<Event> {
    if h == [] then None
    else if About(h[|h| - 1], job) then Some(h[|h| - 1]) else LastAbout(h[..|h| - 1], job)
  }

  lemma LastOfGrown(h: seq<Event>, e: Event, job: Id)
    ensures LastAbout(h + [e], job) == if About(e, job) then Some(e) else LastAbout(h, job)
  {
    assert (h + [e])[..|h + [e]| - 1] == h;
  }

  /** A Job is created when there is none, ends once, and a database becomes Ready right after the Job stamped with its
      SQL has completed. When `truthful`, that SQL is also what the Job's pod ran. */
  predicate Justified(before: seq<Event>, e: Event, truthful: bool) {
    match e
    case JobCreated(job, _) => LastAbout(before, job) in {None, Some(JobDeleted(job))}
    case JobDeleted(job) => LastAbout(before, job) !in {None, Some(JobDeleted(job))}
    case JobEnded(job, outcome) => LastAbout(before, job) == Some(JobCreated(job, outcome.stamp))
    case BecameReady(_, job, sql) =>
      var last := LastAbout(before, job);
      && last.Some? && last.value.JobEnded?
      && last.value.outcome.phase == Complete && last.value.outcome.stamp == sql
      && last.value.outcome.ran.Some? && (truthful ==> last.value.outcome.ran == Some(sql))
  }

  ghost predicate HistoryOk(h: seq<Event>, truthful: bool) {
    forall i :: 0 <= i < |h| ==> Justified(h[..i], h[i], truthful)
  }

  lemma HistoryGrows(h: seq<Event>, e: Event, truthful: bool)
    requires HistoryOk(h, truthful) && Justified(h, e, truthful)
    ensures HistoryOk(h + [e], truthful)
  {
    hide Justified;
    forall i | 0 <= i < |h + [e]| ensures Justified((h + [e])[..i], (h + [e])[i], truthful) {
      assert (h + [e])[..i] == h[..i];
      assert h[..|h|] == h;
    }
  }

  // ---- the invariant ----

  predicate Tracks(h: seq<Event>, jobs: map<Id, Job>, job: Id) {
    if job !in jobs then LastAbout(h, job) in {None, Some(JobDeleted(job))}
    else if jobs[job].phase == Active then LastAbout(h, job) == Some(JobCreated(job, jobs[job].stamp))
    else LastAbout(h, job) == Some(JobEnded(job, jobs[job])) && (jobs[job].phase == Complete ==> jobs[job].ran.Some?)
  }

  /** The ConfigMap belongs to the databases of the Job's name. */
  ghost predicate Fits(job: Id, file: Id) {
    exists name :: job.name == JobName(name) && file == Id(job.namespace, ConfigMapName(name))
  }

  /** The Job can only have run, and can only run, the SQL that it is stamped with. */
  ghost predicate Truthful(configMaps: map<Id, string>, id: Id, job: Job) {
    && Fits(id, job.file)
    && (job.file in configMaps ==> configMaps[job.file] == job.stamp)
    && (job.ran.Some? ==> job.ran.value == job.stamp)
  }

  ghost predicate Inv(s: State, truthful: bool) {
    && HistoryOk(s.history, truthful)
    && (forall job :: Tracks(s.history, s.jobs, job))
    && (truthful ==> forall job :: job in s.jobs ==> Truthful(s.configMaps, job, s.jobs[job]))
  }

  lemma StartsKeeps(s: State, job: Id, truthful: bool)
    requires Inv(s, truthful)
    ensures Inv(JobStarts(s, job), truthful)
  {
    hide HistoryOk, Fits, LastAbout;
    var s' := JobStarts(s, job);
    assert s'.history == s.history && s'.configMaps == s.configMaps;
    forall j ensures Tracks(s'.history, s'.jobs, j) {
      assert Tracks(s.history, s.jobs, j);
    }
  }

  lemma EndsKeeps(s: State, job: Id, succeeds: bool, truthful: bool)
    requires Inv(s, truthful)
    ensures Inv(JobEnds(s, job, succeeds), truthful)
  {
    hide HistoryOk, Truthful, LastAbout;
    if job in s.jobs && s.jobs[job].phase == Active && (succeeds ==> s.jobs[job].ran.Some?) {
      var outcome := s.jobs[job].(phase := if succeeds then Complete else JobFailed);
      var e := JobEnded(job, outcome);
      assert Tracks(s.history, s.jobs, job);
      HistoryGrows(s.history, e, truthful);
      TracksGrown(s.history, s.jobs, s.jobs[job := outcome], job, e);
      EndedTruthful(s, job, outcome);
    }
  }

  lemma EndedTruthful(s: State, job: Id, outcome: Job)
    requires job in s.jobs && outcome == s.jobs[job].(phase := outcome.phase)
    ensures (forall j :: j in s.jobs ==> Truthful(s.configMaps, j, s.jobs[j])) ==>
              forall j :: j in s.jobs ==> Truthful(s.configMaps, j, s.jobs[job := outcome][j])
  {
    hide Fits;
    if forall j :: j in s.jobs ==> Truthful(s.configMaps, j, s.jobs[j]) {
      forall j | j in s.jobs ensures Truthful(s.configMaps, j, s.jobs[job := outcome][j]) {
        assert Truthful(s.configMaps, j, s.jobs[j]);
      }
    }
  }

  /** An event about one Job leaves the others tracked. */
  lemma TracksGrown(h: seq<Event>, jobs: map<Id, Job>, jobs': map<Id, Job>, job: Id, e: Event)
    requires About(e, job) && (forall j :: j != job ==> !About(e, j)) && (forall j :: Tracks(h, jobs, j))
    requires forall j :: j != job ==> (j in jobs' <==> j in jobs) && (j in jobs ==> jobs'[j] == jobs[j])
    requires if job !in jobs' then e == JobDeleted(job)
             else if jobs'[job].phase == Active then e == JobCreated(job, jobs'[job].stamp)
             else e == JobEnded(job, jobs'[job]) && (jobs'[job].phase == Complete ==> jobs'[job].ran.Some?)
    ensures forall j :: Tracks(h + [e], jobs', j)
  {
    hide LastAbout, About;
    forall j ensures Tracks(h + [e], jobs', j) {
      LastOfGrown(h, e, j);
      assert Tracks(h, jobs, j);
    }
  }

  lemma DropKeeps(s: State, job: Id, truthful: bool)
    requires Inv(s, truthful)
    ensures Inv(DropJob(s, job), truthful)
  {
    hide HistoryOk, Truthful, LastAbout;
    if job in s.jobs {
      var e := JobDeleted(job);
      assert Tracks(s.history, s.jobs, job);
      HistoryGrows(s.history, e, truthful);
      TracksGrown(s.history, s.jobs, s.jobs - {job}, job, e);
    }
  }

  lemma CreateKeeps(s: State, job: Id, file: Id, sql: string, truthful: bool)
    requires Inv(s, truthful) && job !in s.jobs && Fits(job, file) && file in s.configMaps && s.configMaps[file] == sql
    ensures Inv(ApplyJob(s, job, file, sql), truthful)
  {
    hide HistoryOk, Fits, LastAbout;
    var e, created := JobCreated(job, sql), Job(sql, file, None, Active);
    assert Tracks(s.history, s.jobs, job);
    HistoryGrows(s.history, e, truthful);
    TracksGrown(s.history, s.jobs, s.jobs[job := created], job, e);
  }

  // ---- the SQL stage ----

  /** Databases that share a ConfigMap name share a Job name. */
  lemma SameFileSameJob(m: string, n: string)
    requires ConfigMapName(m) == ConfigMapName(n)
    ensures JobName(m) == JobName(n)
  {
    var a, b := "dbprov-" + m, "dbprov-" + n;
    var x, y := ConfigMapName(m), ConfigMapName(n);
    assert x == Clip(a + "-sql", MAX_NAME) && y == Clip(b + "-sql", MAX_NAME);
    if |a| < MAX_IDENTIFIER {
      assert x == a + "-sql" && |y| < MAX_NAME && y == b + "-sql";
      assert x[..|x| - 4] == a && y[..|y| - 4] == b;
    } else {
      assert |b| >= MAX_IDENTIFIER;
      assert a[..MAX_IDENTIFIER] == x[..MAX_IDENTIFIER] && b[..MAX_IDENTIFIER] == y[..MAX_IDENTIFIER];
    }
  }

  lemma OneJobPerFile(job: Id, other: Id, file: Id)
    requires Fits(job, file) && Fits(other, file)
    ensures job == other
  {
    hide JobName, ConfigMapName;
    var m :| job.name == JobName(m) && file == Id(job.namespace, ConfigMapName(m));
    var n :| other.name == JobName(n) && file == Id(other.namespace, ConfigMapName(n));
    SameFileSameJob(m, n);
  }

  function Filed(s: State, file: Id, sql: string): State {
    s.(configMaps := s.configMaps[file := sql])
  }

  /** Every Job but one is as truthful after the ConfigMap is written as before, and that one's pod may run the new SQL. */
  ghost predicate TruthfulBut(s: State, job: Id, sql: string) {
    && (forall j :: j in s.jobs && j != job ==> Truthful(s.configMaps, j, s.jobs[j]))
    && (job in s.jobs && s.jobs[job].stamp == sql ==> Truthful(s.configMaps, job, s.jobs[job]))
  }

  lemma FiledKeeps(s: State, job: Id, file: Id, sql: string, truthful: bool)
    requires Inv(s, truthful) && Fits(job, file)
    ensures Inv(Filed(s, file, sql), false)
    ensures truthful ==> TruthfulBut(Filed(s, file, sql), job, sql)
  {
    hide HistoryOk, Fits, LastAbout, Tracks, Justified;
    HistoryLess(s.history, truthful);
    if truthful {
      forall j | j in s.jobs && j != job ensures s.jobs[j].file != file {
        assert Truthful(s.configMaps, j, s.jobs[j]);
        if s.jobs[j].file == file { OneJobPerFile(job, j, file); }
      }
    }
  }

  lemma HistoryLess(h: seq<Event>, truthful: bool)
    requires HistoryOk(h, truthful)
    ensures HistoryOk(h, false)
  {
    forall i | 0 <= i < |h| ensures Justified(h[..i], h[i], false) {
      assert Justified(h[..i], h[i], truthful);
    }
  }

  lemma StartsBut(s: State, job: Id, sql: string)
    requires TruthfulBut(s, job, sql)
    ensures TruthfulBut(JobStarts(s, job), job, sql) && JobStarts(s, job).configMaps == s.configMaps
    ensures JobStarts(s, job).history == s.history && JobStarts(s, job).jobs.Keys == s.jobs.Keys
  {
    hide Fits;
  }

  /** When the apply goes through, the Job is absent or stamped with the SQL, and the truth is restored. */
  lemma ApplyKeeps(s: State, job: Id, file: Id, sql: string, truthful: bool)
    requires Inv(s, false) && Fits(job, file) && file in s.configMaps && s.configMaps[file] == sql
    requires truthful ==> TruthfulBut(s, job, sql) && HistoryOk(s.history, true)
    ensures var s' := ApplyJob(s, job, file, sql);
            Inv(s', truthful) && (job in s'.jobs ==> s'.jobs[job].stamp == sql)
  {
    hide HistoryOk, Fits, LastAbout, Tracks, Justified;
    if job !in s.jobs {
      TruthfulInv(s, truthful);
      CreateKeeps(s, job, file, sql, truthful);
    } else if s.jobs[job].stamp != sql {
      DropKeeps(s, job, false);
      if truthful { DropBut(s, job, sql); }
    } else {
      assert s.history + [] == s.history;
      TruthfulInv(s, truthful);
    }
  }

  lemma TruthfulInv(s: State, truthful: bool)
    requires Inv(s, false) && (truthful ==> HistoryOk(s.history, true))
    requires truthful ==> forall j :: j in s.jobs ==> Truthful(s.configMaps, j, s.jobs[j])
    ensures Inv(s, truthful)
  {
    hide HistoryOk, Truthful, Tracks;
  }

  lemma DropBut(s: State, job: Id, sql: string)
    requires Inv(s, false) && TruthfulBut(s, job, sql) && HistoryOk(s.history, true) && job in s.jobs
    ensures Inv(DropJob(s, job), true)
  {
    hide HistoryOk, Truthful, LastAbout, Justified;
    var e := JobDeleted(job);
    assert Tracks(s.history, s.jobs, job);
    assert Justified(s.history, e, true) by { DeletionJustified(s.history, s.jobs, job); }
    HistoryGrows(s.history, e, true);
    TracksGrown(s.history, s.jobs, s.jobs - {job}, job, e);
  }

  lemma DeletionJustified(h: seq<Event>, jobs: map<Id, Job>, job: Id)
    requires job in jobs && Tracks(h, jobs, job)
    ensures Justified(h, JobDeleted(job), true)
  {
    hide LastAbout;
  }

  /** The pass does not stop between the write of the ConfigMap and the look at the Job. */
  predicate NoTear(o: Oracle) {
    o.configMap ==> o.job
  }

  lemma SqlKeeps(s: State, job: Id, file: Id, sql: string, o: Oracle, truthful: bool)
    requires Inv(s, truthful) && Fits(job, file) && (truthful ==> NoTear(o))
    ensures var (s', blocked) := SqlStage(s, job, file, sql, o);
            Inv(s', truthful) && (blocked.None? && job in s'.jobs ==> s'.jobs[job].stamp == sql)
  {
    hide Inv, Fits, TruthfulBut, JobStarts, ApplyJob;
    if o.configMap {
      assert HistoryOk(s.history, truthful) by { InvHistory(s, truthful); }
      var s1 := Filed(s, file, sql);
      FiledKeeps(s, job, file, sql, truthful);
      if o.starts {
        StartsKeeps(s1, job, false);
        StartedFiles(s1, job);
        if truthful { StartsBut(s1, job, sql); }
      }
      if o.job {
        ApplyKeeps(if o.starts then JobStarts(s1, job) else s1, job, file, sql, truthful);
      }
    }
  }

  lemma InvHistory(s: State, truthful: bool)
    requires Inv(s, truthful)
    ensures HistoryOk(s.history, truthful)
  {
  }

  lemma StartedFiles(s: State, job: Id)
    ensures JobStarts(s, job).configMaps == s.configMaps && JobStarts(s, job).history == s.history
  {
  }

  lemma ProgressKeeps(s: State, job: Id, ends: Option<bool>, truthful: bool)
    requires Inv(s, truthful)
    ensures var s' := Progress(s, job, ends);
            Inv(s', truthful) && s'.jobs.Keys == s.jobs.Keys && (job in s.jobs ==> s'.jobs[job].stamp == s.jobs[job].stamp)
  {
    if ends.Some? {
      StartsKeeps(s, job, truthful);
      EndsKeeps(JobStarts(s, job), job, ends.value, truthful);
    }
    hide Inv;
  }

  lemma ReadyJustified(s: State, id: Id, job: Id, sql: string, truthful: bool)
    requires Inv(s, truthful) && job in s.jobs && s.jobs[job].phase == Complete && s.jobs[job].stamp == sql
    ensures Inv(s.(history := s.history + [BecameReady(id, job, sql)]), truthful)
  {
    hide HistoryOk, Fits, LastAbout;
    var e := BecameReady(id, job, sql);
    assert Tracks(s.history, s.jobs, job);
    assert truthful ==> Truthful(s.configMaps, job, s.jobs[job]);
    HistoryGrows(s.history, e, truthful);
    forall j ensures Tracks(s.history + [e], s.jobs, j) {
      LastOfGrown(s.history, e, j);
      assert Tracks(s.history, s.jobs, j);
    }
  }

  lemma AwaitKeeps(s: State, id: Id, db: Db, job: Id, sql: string, o: Oracle, truthful: bool)
    requires Inv(s, truthful) && (job in s.jobs ==> s.jobs[job].stamp == sql)
    ensures Inv(AwaitStage(s, id, db, job, sql, o).state, truthful)
  {
    hide Inv, Progress;
    ProgressKeeps(s, job, o.ends, truthful);
    var s1 := Progress(s, job, o.ends);
    if JobOutcome(s1, job).None? { ReadyJustified(s1, id, job, sql, truthful); }
  }

  /** The credentials and the database objects are no part of the invariant. */
  lemma InvOnlyJobs(s: State, s': State, truthful: bool)
    requires Inv(s, truthful) && s'.jobs == s.jobs && s'.configMaps == s.configMaps && s'.history == s.history
    ensures Inv(s', truthful)
  {
  }

  lemma ProvisionKeeps(s: State, id: Id, db: Db, namespace: string, path: string, sql: string, o: Oracle, truthful: bool)
    requires Inv(s, truthful) && (truthful ==> NoTear(o))
    ensures Inv(ProvisionWith(s, id, db, namespace, path, sql, o).state, truthful)
  {
    hide Inv, CredentialStage, SqlStage, AwaitStage, OwnerName, JobName, ConfigMapName;
    var (s1, blocked) := CredentialStage(s, path, Id(namespace, OwnerName(id.name)), o);
    CredentialKeeps(s, path, Id(namespace, OwnerName(id.name)), o);
    InvOnlyJobs(s, s1, truthful);
    var job, file := Id(namespace, JobName(id.name)), Id(namespace, ConfigMapName(id.name));
    assert Fits(job, file);
    SqlKeeps(s1, job, file, sql, o, truthful);
    var (s2, failed) := SqlStage(s1, job, file, sql, o);
    if failed.None? { AwaitKeeps(s2, id, db.(serverNamespace := namespace), job, sql, o, truthful); }
  }

  lemma CredentialKeeps(s: State, path: string, owner: Id, o: Oracle)
    ensures var s' := CredentialStage(s, path, owner, o).0;
            s'.jobs == s.jobs && s'.configMaps == s.configMaps && s'.history == s.history
  {
    hide WithPassword, CreateOwner, PasswordAt;
  }

  lemma PassKeeps(s: State, id: Id, prefix: string, o: Oracle, truthful: bool)
    requires Inv(s, truthful) && (truthful ==> NoTear(o))
    ensures Inv(Pass(s, id, prefix, o), truthful)
  {
    hide Inv, ProvisionWith, ValidIdentifier, SqlOf, PathOf;
    if id in s.databases {
      var db := s.databases[id];
      if SpecProblem(s, id.namespace, db.spec).None? {
        var namespace := FindServer(s, id.namespace, db.spec).value.namespace;
        ProvisionKeeps(s, id, db, namespace, PathOf(prefix, db.spec), SqlOf(db.spec), o, truthful);
      }
      var r := Stages(s, id, db, prefix, o);
      InvOnlyJobs(r.state, Finish(r, id), truthful);
    }
  }

  lemma FinalizeKeeps(s: State, id: Id, job: bool, owner: bool, file: bool, truthful: bool)
    requires Inv(s, truthful)
    ensures Inv(Finalize(s, id, job, owner, file), truthful)
  {
    hide Inv, DropJob, JobName, OwnerName, ConfigMapName;
    if id in s.databases {
      var namespace, gone := s.databases[id].serverNamespace, s.(databases := s.databases - {id});
      InvOnlyJobs(s, gone, truthful);
      var jobId := Id(namespace, JobName(id.name));
      DropKeeps(gone, jobId, truthful);
      var dropped := if job then DropJob(gone, jobId) else gone;
      if namespace != "" {
        var s' := Finalize(s, id, job, owner, file);
        FewerFiles(dropped, s', truthful);
      }
    }
  }

  lemma FewerFiles(s: State, s': State, truthful: bool)
    requires Inv(s, truthful) && s'.jobs == s.jobs && s'.history == s.history
    requires forall f :: f in s'.configMaps ==> f in s.configMaps && s'.configMaps[f] == s.configMaps[f]
    ensures Inv(s', truthful)
  {
    hide HistoryOk, Tracks, Fits;
    if truthful {
      forall j | j in s'.jobs ensures Truthful(s'.configMaps, j, s'.jobs[j]) {
        assert Truthful(s.configMaps, j, s.jobs[j]);
      }
    }
  }

  predicate Whole(step: Step) {
    step.Reconcile? ==> NoTear(step.oracle)
  }

  lemma TakeKeeps(s: State, step: Step, prefix: string, truthful: bool)
    requires Inv(s, truthful) && (truthful ==> Whole(step))
    ensures Inv(Take(s, step, prefix), truthful)
  {
    hide Inv, Pass, Finalize, JobStarts, JobEnds, WithClient;
    match step
    case Reconcile(id, o) => PassKeeps(s, id, prefix, o, truthful);
    case Delete(id, job, owner, file) => FinalizeKeeps(s, id, job, owner, file, truthful);
    case PodStarts(job) => StartsKeeps(s, job, truthful);
    case JobFinishes(job, succeeds) => EndsKeeps(s, job, succeeds, truthful);
    case _ => InvOnlyJobs(s, Take(s, step, prefix), truthful);
  }

  lemma {:induction false} RunKeeps(s: State, steps: seq<Step>, prefix: string, truthful: bool)
    requires Inv(s, truthful) && (truthful ==> forall step :: step in steps ==> Whole(step))
    ensures Inv(Run(s, steps, prefix), truthful)
    decreases |steps|
  {
    hide Inv, Take, Whole;
    if |steps| > 0 {
      TakeKeeps(s, steps[0], prefix, truthful);
      RunKeeps(Take(s, steps[0], prefix), steps[1..], prefix, truthful);
    }
  }

  /** Over every run of passes, edits, deletions and Job status changes, whatever calls fail: a database becomes Ready only
      right after a Job that is stamped with its present SQL has completed, and Jobs live one after the other. */
  lemma ReadyMeansCurrentSql(steps: seq<Step>, prefix: string)
    ensures HistoryOk(Run(FRESH, steps, prefix).history, false)
  {
    assert Inv(FRESH, false);
    RunKeeps(FRESH, steps, prefix, false);
  }

  /** The SQL in such an event is that of the spec the pass read. */
  lemma ReadyIsLogged(s: State, id: Id, prefix: string, o: Oracle)
    requires id in s.databases && Pass(s, id, prefix, o).databases[id].ready == IsReady
    ensures var h := Pass(s, id, prefix, o).history;
            h != [] && h[|h| - 1].BecameReady? && h[|h| - 1].db == id && h[|h| - 1].sql == SqlOf(s.databases[id].spec)
  {
    hide SqlOf, PathOf, ValidIdentifier, CredentialStage, SqlStage, Progress, JobOutcome, OwnerName, JobName, ConfigMapName;
  }
}
