/** The database reconciler as it runs: keys are ensured in a loop, objects are applied one after the other, and a pass
    stops at the first `fail`. Each method does exactly what the transition system says. */
module DatabaseReconciler {
  import opened Wrappers
  import opened DatabaseModel
  import Secrets = ScopedSecrets

  class Reconciler {
    const prefix: string
    var databases: map<Id, Db>
    var servers: map<Id, Server>
    var clientNamespaces: map<string, string>
    var kv: Secrets.KV
    var owners: map<Id, string>
    var configMaps: map<Id, string>
    var jobs: map<Id, Job>
    ghost var history: seq<Event>

    ghost function View(): State
      reads this
    {
      State(databases, servers, clientNamespaces, kv, owners, configMaps, jobs, history)
    }

    constructor (prefix: string)
      ensures View() == FRESH && this.prefix == prefix
    {
      this.prefix := prefix;
      databases, servers, clientNamespaces, kv := map[], map[], map[], map[];
      owners, configMaps, jobs, history := map[], map[], map[], [];
    }

    /** Reads the map at the path, fills the wanted keys that have no value, and writes it back if it changed. */
    method EnsureKeysAt(path: string, want: seq<string>, generate: string -> string)
      returns (current: Secrets.Secrets, changed: bool)
      modifies this`kv
      ensures kv == EnsureKeys(old(kv), path, want, generate)
      ensures current == Ensured(Secrets.Get(old(kv), Secrets.Key(path)), want, generate)
      ensures changed <==> !AllPresent(Secrets.Get(old(kv), Secrets.Key(path)), want)
    {
      hide Secrets.Key, Ensured, AllPresent;
      ghost var data := Secrets.Get(kv, Secrets.Key(path));
      current := if Secrets.Key(path) in kv then kv[Secrets.Key(path)] else map[];
      changed := false;
      EnsuredNone(data, generate);
      assert want[..0] == [];
      for i := 0 to |want|
        invariant current == Ensured(data, want[..i], generate)
        invariant changed <==> !AllPresent(data, want[..i])
        invariant kv == old(kv)
      {
        var key := want[i];
        assert want[..i + 1] == want[..i] + [key];
        if key in current && current[key] != "" {
          EnsuredKept(data, want[..i], key, generate);
        } else {
          EnsuredFilled(data, want[..i], key, generate);
          current := current[key := generate(key)];
          changed := true;
        }
      }
      assert want[..|want|] == want;
      if changed {
        kv := kv[Secrets.Key(path) := current];
      }
    }

    /** A create-only Secret is created if absent, and otherwise left untouched. */
    method ApplyOwnerSecret(at: Id, password: string)
      modifies this`owners
      ensures owners == CreateOwner(old(owners), at, password)
    {
      if at !in owners { owners := owners[at := password]; }
    }

    /** Reads the Job: creates it when absent, deletes it when its stamped hash is not the one wanted. */
    method ApplyProvisionJob(job: Id, file: Id, sql: string)
      modifies this`jobs, this`history
      ensures View() == ApplyJob(old(View()), job, file, sql)
    {
      if job !in jobs {
        jobs := jobs[job := Job(sql, file, None, Active)];
        history := history + [JobCreated(job, sql)];
        return;
      }
      if jobs[job].stamp != sql {
        DeleteProvisionJob(job);
      } else {
        assert history + [] == history;
      }
    }

    method DeleteProvisionJob(job: Id)
      modifies this`jobs, this`history
      ensures View() == DropJob(old(View()), job)
    {
      if job in jobs {
        jobs := jobs - {job};
        history := history + [JobDeleted(job)];
      }
    }

    /** The Job's pod starts or is retried. */
    method PodStarts(job: Id)
      modifies this`jobs
      ensures View() == JobStarts(old(View()), job)
    {
      if job in jobs && jobs[job].phase == Active && jobs[job].file in configMaps {
        jobs := jobs[job := jobs[job].(ran := Some(configMaps[jobs[job].file]))];
      }
    }

    /** The Job ends. */
    method JobFinishes(job: Id, succeeds: bool)
      modifies this`jobs, this`history
      ensures View() == JobEnds(old(View()), job, succeeds)
    {
      if job in jobs && jobs[job].phase == Active && (succeeds ==> jobs[job].ran.Some?) {
        var outcome := jobs[job].(phase := if succeeds then Complete else JobFailed);
        jobs := jobs[job := outcome];
        history := history + [JobEnded(job, outcome)];
      }
    }

    /** The password in OpenBao and the owner Secret in the server's namespace. */
    method ProvideCredentials(path: string, owner: Id, o: Oracle) returns (blocked: Option<Reason>)
      modifies this`kv, this`owners
      ensures (View(), blocked) == CredentialStage(old(View()), path, owner, o)
    {
      hide Secrets.Key, Ensured, EnsureKeys;
      if !o.bao { return Some(BackendError); }
      var creds, changed := EnsureKeysAt(path, PASSWORD, _ => o.generated);
      if !o.owner { return Some(BackendError); }
      EnsuredIsStored(old(kv), path, _ => o.generated);
      assert kv == WithPassword(old(kv), path, o.generated);
      ApplyOwnerSecret(owner, creds["password"]);
      blocked := None;
    }

    /** The ConfigMap with the SQL, then the Job that mounts it. */
    method ProvideSql(job: Id, file: Id, sql: string, o: Oracle) returns (blocked: Option<Reason>)
      modifies this`configMaps, this`jobs, this`history
      ensures (View(), blocked) == SqlStage(old(View()), job, file, sql, o)
    {
      hide JobStarts, ApplyJob;
      if !o.configMap { return Some(BackendError); }
      configMaps := configMaps[file := sql];
      if o.starts { PodStarts(job); }
      if !o.job { return Some(BackendError); }
      ApplyProvisionJob(job, file, sql);
      blocked := None;
    }

    /** The Job is read; the database is Ready once it has succeeded and its credentials are delivered. */
    method Await(id: Id, db: Db, job: Id, sql: string, o: Oracle) returns (blocked: Option<Reason>)
      modifies this`jobs, this`history
      ensures Staged(View(), db, blocked) == AwaitStage(old(View()), id, db, job, sql, o)
    {
      hide JobStarts, JobEnds;
      if o.ends.Some? {
        PodStarts(job);
        JobFinishes(job, o.ends.value);
      }
      if job in jobs && jobs[job].phase == JobFailed { return Some(BackendError); }
      if !(job in jobs && jobs[job].phase == Complete) { return Some(Reconciling); }
      if db.spec.deliver != "" && !o.deliver { return Some(BackendError); }
      history := history + [BecameReady(id, job, sql)];
      blocked := None;
    }

    /** Everything after the server is known; the database object comes back with the fields the pass has written. */
    method Provision(id: Id, db: Db, namespace: string, path: string, sql: string, o: Oracle)
      returns (written: Db, blocked: Option<Reason>)
      modifies this`kv, this`owners, this`configMaps, this`jobs, this`history
      ensures Staged(View(), written, blocked) == ProvisionWith(old(View()), id, db, namespace, path, sql, o)
    {
      hide CredentialStage, SqlStage, AwaitStage, OwnerName, JobName, ConfigMapName;
      written := db;
      blocked := ProvideCredentials(path, Id(namespace, OwnerName(id.name)), o);
      if blocked.Some? { return; }
      var job, file := Id(namespace, JobName(id.name)), Id(namespace, ConfigMapName(id.name));
      blocked := ProvideSql(job, file, sql, o);
      if blocked.Some? { return; }
      written := written.(serverNamespace := namespace);
      blocked := Await(id, written, job, sql, o);
    }

    /** One pass over a database. */
    method Reconcile(id: Id, o: Oracle)
      modifies this
      ensures View() == Pass(old(View()), id, prefix, o)
    {
      hide ProvisionWith, SqlOf, PathOf, ValidIdentifier;
      if id !in databases { return; }
      var db := databases[id];
      var spec := db.spec;
      var blocked: Option<Reason> := None;
      if spec.client == "" || spec.server == "" || !ValidIdentifier(spec.database) || !ValidIdentifier(spec.user) {
        blocked := Some(InvalidSpec);
      } else {
        var server := FindServer(State(map[], servers, clientNamespaces, map[], map[], map[], map[], []), id.namespace, spec);
        if server.None? || !Published(server.value) {
          blocked := Some(DependencyNotMet);
        } else {
          db, blocked := Provision(id, db, server.value.namespace, PathOf(prefix, spec), SqlOf(spec), o);
        }
      }
      db := db.(ready := if blocked.Some? then NotReady(blocked.value) else IsReady);
      databases := databases[id := db];
    }

    /** Removes the Job, the owner Secret and the ConfigMap; each deletion may fail on its own. */
    method FinalizeDatabase(id: Id, jobGone: bool, ownerGone: bool, fileGone: bool)
      modifies this
      ensures View() == Finalize(old(View()), id, jobGone, ownerGone, fileGone)
    {
      hide DropJob, JobName, OwnerName, ConfigMapName;
      if id !in databases { return; }
      var namespace := databases[id].serverNamespace;
      databases := databases - {id};
      if namespace == "" { return; }
      if jobGone { DeleteProvisionJob(Id(namespace, JobName(id.name))); }
      assert owners == old(owners) by { DropOnlyJobs(old(View()).(databases := databases), Id(namespace, JobName(id.name))); }
      if ownerGone { owners := owners - {Id(namespace, OwnerName(id.name))}; }
      if fileGone { configMaps := configMaps - {Id(namespace, ConfigMapName(id.name))}; }
    }

    /** The credentials of an OAuth2 application. */
    method ReconcileSso(path: string, clientId: string, clientSecret: string, answers: bool)
      modifies this`kv
      ensures View() == Sso(old(View()), path, clientId, clientSecret, answers)
    {
      if answers {
        var creds, changed := EnsureKeysAt(path, CLIENT_KEYS, (k: string) => if k == "client-id" then clientId else clientSecret);
        hide EnsureKeys, Secrets.Key;
        assert kv == WithClient(old(kv), path, clientId, clientSecret);
      }
    }
  }

  lemma EnsuredNone(data: Secrets.Secrets, generate: string -> string)
    ensures Ensured(data, [], generate) == data && AllPresent(data, [])
  {
  }

  lemma EnsuredKept(data: Secrets.Secrets, want: seq<string>, key: string, generate: string -> string)
    requires Present(Ensured(data, want, generate), key)
    ensures Ensured(data, want + [key], generate) == Ensured(data, want, generate)
    ensures AllPresent(data, want + [key]) <==> AllPresent(data, want)
  {
    assert key in want || Present(data, key);
  }

  lemma EnsuredFilled(data: Secrets.Secrets, want: seq<string>, key: string, generate: string -> string)
    requires !Present(Ensured(data, want, generate), key)
    ensures Ensured(data, want + [key], generate) == Ensured(data, want, generate)[key := generate(key)]
    ensures !AllPresent(data, want + [key])
  {
    assert key in want + [key] && !Present(data, key);
  }

  /** The map that `ensure_keys` returns is the one at the path afterwards. */
  lemma EnsuredIsStored(kv: Secrets.KV, path: string, generate: string -> string)
    ensures var current := Ensured(Secrets.Get(kv, Secrets.Key(path)), PASSWORD, generate);
            "password" in current && PasswordAt(EnsureKeys(kv, path, PASSWORD, generate), path) == current["password"]
  {
    hide Secrets.Key;
    assert "password" in PASSWORD;
  }

  lemma DropOnlyJobs(s: State, job: Id)
    ensures DropJob(s, job).owners == s.owners && DropJob(s, job).configMaps == s.configMaps
  {
  }
}
