/** An edit of a database's SQL reaches a new Job, and an unchanged script never runs twice. */
module ProvisioningEdits {
  import opened Wrappers
  import opened DatabaseModel
  import opened Provisioning
  import Credentials

  /** The Job that a pass over this database looks after. */
  function JobOf(s: State, id: Id): Id
    requires Credentials.ServerOf(s, id).Some?
  {
    Id(Credentials.ServerOf(s, id).value.namespace, JobName(id.name))
  }

  /** The step leaves the Job to this SQL: passes that look after it ask for it, and no finalizer deletes it. */
  predicate Quiet(s: State, step: Step, job: Id, sql: string) {
    && (step.Reconcile? && Credentials.ServerOf(s, step.id).Some? && JobOf(s, step.id) == job ==>
          SqlOf(s.databases[step.id].spec) == sql)
    && (step.Delete? && step.id in s.databases ==> Id(s.databases[step.id].serverNamespace, JobName(step.id.name)) != job)
  }

  predicate AllQuiet(s: State, steps: seq<Step>, prefix: string, job: Id, sql: string)
    decreases |steps|
  {
    |steps| > 0 ==> Quiet(s, steps[0], job, sql) && AllQuiet(Take(s, steps[0], prefix), steps[1..], prefix, job, sql)
  }

  /** From `s` to `s'` the Job was neither created nor deleted. */
  ghost predicate SameJob(s: State, s': State, job: Id) {
    && s.history <= s'.history
    && (job in s'.jobs <==> job in s.jobs) && (job in s.jobs ==> s'.jobs[job].stamp == s.jobs[job].stamp)
    && forall i :: |s.history| <= i < |s'.history| ==>
         !(s'.history[i].JobCreated? && s'.history[i].job == job) && !(s'.history[i].JobDeleted? && s'.history[i].job == job)
  }

  lemma SameTrans(a: State, b: State, c: State, job: Id)
    requires SameJob(a, b, job) && SameJob(b, c, job)
    ensures SameJob(a, c, job)
  {
  }

  lemma SameByEquality(s: State, s': State, job: Id)
    requires s'.jobs == s.jobs && s'.history == s.history
    ensures SameJob(s, s', job)
  {
  }

  lemma StartsSame(s: State, other: Id, job: Id)
    ensures SameJob(s, JobStarts(s, other), job)
  {
  }

  lemma EndsSame(s: State, other: Id, succeeds: bool, job: Id)
    ensures SameJob(s, JobEnds(s, other, succeeds), job)
  {
  }

  lemma ApplySame(s: State, other: Id, file: Id, sql: string, job: Id)
    requires other != job || (job in s.jobs && s.jobs[job].stamp == sql)
    ensures SameJob(s, ApplyJob(s, other, file, sql), job)
  {
  }

  lemma SqlSame(s: State, other: Id, file: Id, sql: string, o: Oracle, job: Id)
    requires other != job || (job in s.jobs && s.jobs[job].stamp == sql)
    ensures SameJob(s, SqlStage(s, other, file, sql, o).0, job)
  {
    hide JobStarts, ApplyJob, SameJob;
    var s1 := Filed(s, file, sql);
    SameByEquality(s, s, job);
    SameByEquality(s, s1, job);
    var s2 := if o.starts then JobStarts(s1, other) else s1;
    if o.starts {
      StartsSame(s1, other, job);
      SameTrans(s, s1, s2, job);
    }
    assert other != job || (job in s2.jobs && s2.jobs[job].stamp == sql) by { SameStamp(s, s2, job); }
    ApplySame(s2, other, file, sql, job);
    SameTrans(s, s2, ApplyJob(s2, other, file, sql), job);
  }

  lemma SameStamp(s: State, s': State, job: Id)
    requires SameJob(s, s', job)
    ensures job in s.jobs ==> job in s'.jobs && s'.jobs[job].stamp == s.jobs[job].stamp
  {
  }

  lemma ProgressSame(s: State, other: Id, ends: Option<bool>, job: Id)
    ensures SameJob(s, Progress(s, other, ends), job)
  {
    hide JobStarts, JobEnds, SameJob;
    if ends.Some? {
      StartsSame(s, other, job);
      EndsSame(JobStarts(s, other), other, ends.value, job);
      SameTrans(s, JobStarts(s, other), Progress(s, other, ends), job);
    } else {
      SameByEquality(s, s, job);
    }
  }

  lemma AwaitSame(s: State, id: Id, db: Db, other: Id, sql: string, o: Oracle, job: Id)
    ensures SameJob(s, AwaitStage(s, id, db, other, sql, o).state, job)
  {
    hide Progress, JobOutcome;
    ProgressSame(s, other, o.ends, job);
  }

  lemma ProvisionSame(s: State, id: Id, db: Db, namespace: string, path: string, sql: string, o: Oracle, job: Id)
    requires Id(namespace, JobName(id.name)) != job || (job in s.jobs && s.jobs[job].stamp == sql)
    ensures SameJob(s, ProvisionWith(s, id, db, namespace, path, sql, o).state, job)
  {
    hide SameJob, CredentialStage, SqlStage, AwaitStage, OwnerName, JobName, ConfigMapName;
    var (s1, blocked) := CredentialStage(s, path, Id(namespace, OwnerName(id.name)), o);
    CredentialKeeps(s, path, Id(namespace, OwnerName(id.name)), o);
    SameByEquality(s, s1, job);
    var other, file := Id(namespace, JobName(id.name)), Id(namespace, ConfigMapName(id.name));
    SqlSame(s1, other, file, sql, o, job);
    var (s2, failed) := SqlStage(s1, other, file, sql, o);
    SameTrans(s, s1, s2, job);
    AwaitSame(s2, id, db.(serverNamespace := namespace), other, sql, o, job);
    if blocked.None? && failed.None? {
      SameTrans(s, s2, ProvisionWith(s, id, db, namespace, path, sql, o).state, job);
    }
  }

  lemma PassSame(s: State, id: Id, prefix: string, o: Oracle, job: Id)
    requires Credentials.ServerOf(s, id).Some? && JobOf(s, id) == job ==>
               job in s.jobs && s.jobs[job].stamp == SqlOf(s.databases[id].spec)
    ensures SameJob(s, Pass(s, id, prefix, o), job)
  {
    hide SameJob, ProvisionWith, ValidIdentifier, SqlOf, PathOf, JobName;
    SameByEquality(s, s, job);
    if id in s.databases {
      var db := s.databases[id];
      if SpecProblem(s, id.namespace, db.spec).None? {
        var namespace := FindServer(s, id.namespace, db.spec).value.namespace;
        ProvisionSame(s, id, db, namespace, PathOf(prefix, db.spec), SqlOf(db.spec), o, job);
      }
      var r := Stages(s, id, db, prefix, o);
      SameByEquality(r.state, Finish(r, id), job);
      SameTrans(s, r.state, Finish(r, id), job);
    }
  }

  lemma DropSame(s: State, other: Id, job: Id)
    requires other != job
    ensures SameJob(s, DropJob(s, other), job)
  {
  }

  lemma FinalizeSame(s: State, id: Id, gone: bool, owner: bool, file: bool, job: Id)
    requires id in s.databases ==> Id(s.databases[id].serverNamespace, JobName(id.name)) != job
    ensures SameJob(s, Finalize(s, id, gone, owner, file), job)
  {
    hide SameJob, DropJob, JobName, OwnerName, ConfigMapName;
    SameByEquality(s, s, job);
    if id in s.databases {
      var s1, other := s.(databases := s.databases - {id}), Id(s.databases[id].serverNamespace, JobName(id.name));
      SameByEquality(s, s1, job);
      DropSame(s1, other, job);
      SameTrans(s, s1, DropJob(s1, other), job);
      var dropped := if gone then DropJob(s1, other) else s1;
      if other.namespace != "" {
        var s' := Finalize(s, id, gone, owner, file);
        SameByEquality(dropped, s', job);
        SameTrans(s, dropped, s', job);
      }
    }
  }

  lemma TakeSame(s: State, step: Step, prefix: string, job: Id, sql: string)
    requires Quiet(s, step, job, sql) && job in s.jobs && s.jobs[job].stamp == sql
    ensures SameJob(s, Take(s, step, prefix), job)
  {
    hide SameJob, Pass, Finalize, JobStarts, JobEnds, WithClient, JobName, SqlOf, Credentials.ServerOf;
    match step
    case Reconcile(id, o) => PassSame(s, id, prefix, o, job);
    case Delete(id, gone, owner, file) => FinalizeSame(s, id, gone, owner, file, job);
    case PodStarts(other) => StartsSame(s, other, job);
    case JobFinishes(other, succeeds) => EndsSame(s, other, succeeds, job);
    case _ => SameByEquality(s, Take(s, step, prefix), job);
  }

  /** While a Job's SQL stays the one that is asked for, no run creates a second Job, or deletes the first. */
  lemma {:induction false} UnchangedSqlKeepsItsJob(s: State, steps: seq<Step>, prefix: string, job: Id, sql: string)
    requires job in s.jobs && s.jobs[job].stamp == sql && AllQuiet(s, steps, prefix, job, sql)
    ensures SameJob(s, Run(s, steps, prefix), job)
    decreases |steps|
  {
    hide SameJob, Take, Quiet;
    if |steps| == 0 {
      SameByEquality(s, s, job);
    } else {
      var s1 := Take(s, steps[0], prefix);
      TakeSame(s, steps[0], prefix, job, sql);
      SameStamp(s, s1, job);
      UnchangedSqlKeepsItsJob(s1, steps[1..], prefix, job, sql);
      SameTrans(s, s1, Run(s, steps, prefix), job);
    }
  }

  /** If the Job is there, it is stamped with the SQL. */
  predicate Current(s: State, job: Id, sql: string) {
    job in s.jobs ==> s.jobs[job].stamp == sql
  }

  /** The calls up to the look at the Job succeed. */
  predicate Through(o: Oracle) {
    o.bao && o.owner && o.configMap && o.job
  }

  lemma SqlCurrent(s: State, job: Id, file: Id, sql: string, o: Oracle)
    ensures var s' := SqlStage(s, job, file, sql, o).0;
            && (Current(s, job, sql) ==> Current(s', job, sql))
            && (o.configMap && o.job ==>
                  && SqlStage(s, job, file, sql, o).1.None?
                  && Current(s', job, sql) && (Current(s, job, sql) ==> job in s'.jobs))
  {
  }

  lemma ProvisionCurrent(s: State, id: Id, db: Db, namespace: string, path: string, sql: string, o: Oracle)
    ensures var s', job := ProvisionWith(s, id, db, namespace, path, sql, o).state, Id(namespace, JobName(id.name));
            && (Current(s, job, sql) ==> Current(s', job, sql))
            && (Through(o) ==> Current(s', job, sql) && (Current(s, job, sql) ==> job in s'.jobs))
  {
    hide CredentialStage, SqlStage, AwaitStage, OwnerName, JobName, ConfigMapName, SameJob;
    var (s1, blocked) := CredentialStage(s, path, Id(namespace, OwnerName(id.name)), o);
    CredentialKeeps(s, path, Id(namespace, OwnerName(id.name)), o);
    CredentialThrough(s, path, Id(namespace, OwnerName(id.name)), o);
    var job, file := Id(namespace, JobName(id.name)), Id(namespace, ConfigMapName(id.name));
    SqlCurrent(s1, job, file, sql, o);
    var (s2, failed) := SqlStage(s1, job, file, sql, o);
    if blocked.None? && failed.None? {
      AwaitSame(s2, id, db.(serverNamespace := namespace), job, sql, o, job);
      SameStampBoth(s2, ProvisionWith(s, id, db, namespace, path, sql, o).state, job);
    }
  }

  lemma CredentialThrough(s: State, path: string, owner: Id, o: Oracle)
    ensures CredentialStage(s, path, owner, o).1.None? <==> o.bao && o.owner
  {
  }

  lemma SameStampBoth(s: State, s': State, job: Id)
    requires SameJob(s, s', job)
    ensures (job in s'.jobs <==> job in s.jobs) && (job in s.jobs ==> s'.jobs[job].stamp == s.jobs[job].stamp)
  {
  }

  /** A pass that gets through leaves the Job current or deleted, and current if it was not stale. */
  lemma PassCurrent(s: State, id: Id, prefix: string, o: Oracle)
    requires Credentials.ServerOf(s, id).Some?
    ensures var s', job, sql := Pass(s, id, prefix, o), JobOf(s, id), SqlOf(s.databases[id].spec);
            && (Current(s, job, sql) ==> Current(s', job, sql))
            && (Through(o) ==> Current(s', job, sql) && (Current(s, job, sql) ==> job in s'.jobs))
  {
    hide ProvisionWith, ValidIdentifier, SqlOf, PathOf, JobName;
    var db := s.databases[id];
    ProvisionCurrent(s, id, db, Credentials.ServerOf(s, id).value.namespace, PathOf(prefix, db.spec), SqlOf(db.spec), o);
  }

  lemma TakeCurrent(s: State, step: Step, prefix: string, job: Id, sql: string)
    requires Quiet(s, step, job, sql) && Current(s, job, sql)
    ensures Current(Take(s, step, prefix), job, sql)
  {
    hide SameJob, Pass, Take, JobName, SqlOf, Credentials.ServerOf;
    if job in s.jobs {
      TakeSame(s, step, prefix, job, sql);
      SameStampBoth(s, Take(s, step, prefix), job);
    } else {
      TakeAbsent(s, step, prefix, job, sql);
    }
  }

  lemma TakeAbsent(s: State, step: Step, prefix: string, job: Id, sql: string)
    requires Quiet(s, step, job, sql) && job !in s.jobs
    ensures Current(Take(s, step, prefix), job, sql)
  {
    hide SameJob, Pass, Finalize, JobStarts, JobEnds, WithClient, JobName, SqlOf, Credentials.ServerOf;
    var s' := Take(s, step, prefix);
    match step
    case Reconcile(id, o) =>
      if Credentials.ServerOf(s, id).Some? && JobOf(s, id) == job {
        PassCurrent(s, id, prefix, o);
      } else {
        PassSame(s, id, prefix, o, job);
        SameStampBoth(s, s', job);
      }
    case Delete(id, gone, owner, file) =>
      FinalizeSame(s, id, gone, owner, file, job);
      SameStampBoth(s, s', job);
    case PodStarts(other) =>
      StartsSame(s, other, job);
      SameStampBoth(s, s', job);
    case JobFinishes(other, succeeds) =>
      EndsSame(s, other, succeeds, job);
      SameStampBoth(s, s', job);
    case _ =>
  }

  lemma {:induction false} RunCurrent(s: State, steps: seq<Step>, prefix: string, job: Id, sql: string)
    requires Current(s, job, sql) && AllQuiet(s, steps, prefix, job, sql)
    ensures Current(Run(s, steps, prefix), job, sql)
    decreases |steps|
  {
    hide Current, Take, Quiet;
    if |steps| > 0 {
      TakeCurrent(s, steps[0], prefix, job, sql);
      RunCurrent(Take(s, steps[0], prefix), steps[1..], prefix, job, sql);
    }
  }

  /** An edit reaches a Job within two passes: whatever Job there was, after a first pass that gets through, any quiet
      interlude, and a second one, the Job is there and stamped with the SQL of the spec. */
  lemma EditReachesJob(s: State, id: Id, prefix: string, o1: Oracle, between: seq<Step>, o2: Oracle)
    requires id in s.databases && Credentials.ServerOf(s, id).Some? && Through(o1) && Through(o2)
    requires var s1 := Pass(s, id, prefix, o1);
             var s2 := Run(s1, between, prefix);
             && AllQuiet(s1, between, prefix, JobOf(s, id), SqlOf(s.databases[id].spec))
             && Credentials.ServerOf(s2, id).Some? && JobOf(s2, id) == JobOf(s, id)
             && id in s2.databases && SqlOf(s2.databases[id].spec) == SqlOf(s.databases[id].spec)
    ensures var s2 := Run(Pass(s, id, prefix, o1), between, prefix);
            var s3, job := Pass(s2, id, prefix, o2), JobOf(s, id);
            job in s3.jobs && s3.jobs[job].stamp == SqlOf(s.databases[id].spec)
  {
    hide Pass, Run, AllQuiet, Credentials.ServerOf, SqlOf, JobName;
    var s1 := Pass(s, id, prefix, o1);
    PassCurrent(s, id, prefix, o1);
    RunCurrent(s1, between, prefix, JobOf(s, id), SqlOf(s.databases[id].spec));
    PassCurrent(Run(s1, between, prefix), id, prefix, o2);
  }
}
