/** What one pass over a database reports and leaves, from any state and whatever its calls meet: which server it provisions
    on, the cause of every outcome, where the password lives, and what a deletion removes. */
module ProvisioningOutcomes {
  import opened Text
  import opened Wrappers
  import opened DatabaseModel
  import Names
  import Secrets = ScopedSecrets

  // ---- the server ----

  /** A server beside the database comes first, then one in the namespace of its client. */
  predicate IsServer(s: State, namespace: string, spec: DbSpec, server: Server) {
    if Id(namespace, spec.server) in s.servers then server == s.servers[Id(namespace, spec.server)]
    else
      && spec.client in s.clientNamespaces && s.clientNamespaces[spec.client] !in {"", namespace}
      && Id(s.clientNamespaces[spec.client], spec.server) in s.servers
      && server == s.servers[Id(s.clientNamespaces[spec.client], spec.server)]
  }

  lemma ServerIsNearest(s: State, namespace: string, spec: DbSpec)
    ensures var found := FindServer(s, namespace, spec);
            && (found.Some? <==> exists server :: IsServer(s, namespace, spec, server))
            && (found.Some? ==> IsServer(s, namespace, spec, found.value))
  {
    var found := FindServer(s, namespace, spec);
    if found.Some? { assert IsServer(s, namespace, spec, found.value); }
  }

  // ---- the outcome of a pass ----

  predicate ValidSpec(spec: DbSpec) {
    spec.client != "" && spec.server != "" && ValidIdentifier(spec.database) && ValidIdentifier(spec.user)
  }

  predicate Reconciled(server: Server) {
    server.namespace != "" && server.host != "" && server.adminSecret != ""
  }

  function PhaseAt(s: State, job: Id): Option<JobPhase> {
    if job in s.jobs then Some(s.jobs[job].phase) else None
  }

  /** The cause of the outcome of a pass that goes to this server. */
  predicate ServedTold(s': State, id: Id, spec: DbSpec, o: Oracle, server: Server, ready: Ready) {
    var job := Id(server.namespace, JobName(id.name));
    match ready
    case Unset => false
    case IsReady =>
      && o.bao && o.owner && o.configMap && o.job && (spec.deliver != "" ==> o.deliver)
      && PhaseAt(s', job) == Some(Complete)
      && Id(server.namespace, OwnerName(id.name)) in s'.owners
      && Id(server.namespace, ConfigMapName(id.name)) in s'.configMaps
      && s'.configMaps[Id(server.namespace, ConfigMapName(id.name))] == SqlOf(spec)
      && id in s'.databases && s'.databases[id].serverNamespace == server.namespace
      && s'.history != [] && s'.history[|s'.history| - 1] == BecameReady(id, job, SqlOf(spec))
    case NotReady(BackendError) =>
      || !o.bao || !o.owner || !o.configMap || !o.job || PhaseAt(s', job) == Some(JobFailed)
      || (PhaseAt(s', job) == Some(Complete) && spec.deliver != "" && !o.deliver)
    case NotReady(Reconciling) => o.bao && o.owner && o.configMap && o.job && PhaseAt(s', job) in {None, Some(Active)}
    case NotReady(_) => false
  }

  /** The cause of the outcome that a pass over a database reports. */
  ghost predicate Told(s: State, s': State, id: Id, o: Oracle)
    requires id in s.databases && id in s'.databases
  {
    var spec, ready := s.databases[id].spec, s'.databases[id].ready;
    if !ValidSpec(spec) then ready == NotReady(InvalidSpec)
    else
      || (ready == NotReady(DependencyNotMet) && forall server :: IsServer(s, id.namespace, spec, server) ==> !Reconciled(server))
      || (exists server :: IsServer(s, id.namespace, spec, server) && Reconciled(server)
                           && ServedTold(s', id, spec, o, server, ready))
  }

  lemma CredentialsLeft(s: State, path: string, owner: Id, o: Oracle)
    ensures var (s', blocked) := CredentialStage(s, path, owner, o);
            && (blocked == if o.bao && o.owner then None else Some(BackendError))
            && (blocked.None? ==> owner in s'.owners)
            && s' == s.(kv := s'.kv, owners := s'.owners)
  {
    hide EnsureKeys, Secrets.Key, PasswordAt;
  }

  lemma SqlLeft(s: State, job: Id, file: Id, sql: string, o: Oracle)
    ensures var (s', blocked) := SqlStage(s, job, file, sql, o);
            && (blocked == if o.configMap && o.job then None else Some(BackendError))
            && (blocked.None? ==> file in s'.configMaps && s'.configMaps[file] == sql)
            && s'.owners == s.owners && s'.databases == s.databases
  {
  }

  lemma StartsLeave(s: State, job: Id)
    ensures var s' := JobStarts(s, job); s' == s.(jobs := s'.jobs)
  {
  }

  lemma EndsLeave(s: State, job: Id, succeeds: bool)
    ensures var s' := JobEnds(s, job, succeeds); s' == s.(jobs := s'.jobs, history := s'.history)
  {
  }

  lemma ProgressLeaves(s: State, job: Id, ends: Option<bool>)
    ensures var s' := Progress(s, job, ends);
            s'.owners == s.owners && s'.configMaps == s.configMaps && s'.databases == s.databases
  {
    hide JobStarts, JobEnds;
    StartsLeave(s, job);
    if ends.Some? { EndsLeave(JobStarts(s, job), job, ends.value); }
  }

  lemma AwaitLeft(s: State, id: Id, db: Db, job: Id, sql: string, o: Oracle)
    ensures var r := AwaitStage(s, id, db, job, sql, o);
            && r.db == db && r.state.owners == s.owners && r.state.configMaps == s.configMaps && r.state.databases == s.databases
            && match r.blocked
               case None =>
                 && PhaseAt(r.state, job) == Some(Complete) && (db.spec.deliver != "" ==> o.deliver)
                 && r.state.history != [] && r.state.history[|r.state.history| - 1] == BecameReady(id, job, sql)
               case Some(BackendError) =>
                 || PhaseAt(r.state, job) == Some(JobFailed)
                 || (PhaseAt(r.state, job) == Some(Complete) && db.spec.deliver != "" && !o.deliver)
               case Some(Reconciling) => PhaseAt(r.state, job) in {None, Some(Active)}
               case Some(_) => false
  {
    hide Progress;
    ProgressLeaves(s, job, o.ends);
  }

  lemma ProvisionTells(s: State, id: Id, db: Db, prefix: string, server: Server, o: Oracle)
    requires id in s.databases
    ensures var r := ProvisionWith(s, id, db, server.namespace, PathOf(prefix, db.spec), SqlOf(db.spec), o);
            && r.state.databases == s.databases && r.db.spec == db.spec
            && ServedTold(Finish(r, id), id, db.spec, o, server, Finish(r, id).databases[id].ready)
  {
    hide CredentialStage, SqlStage, AwaitStage, OwnerName, JobName, ConfigMapName, PathOf, SqlOf;
    var namespace, path, sql := server.namespace, PathOf(prefix, db.spec), SqlOf(db.spec);
    var job, file, owner := Id(namespace, JobName(id.name)), Id(namespace, ConfigMapName(id.name)), Id(namespace, OwnerName(id.name));
    CredentialsLeft(s, path, owner, o);
    var (s1, blocked) := CredentialStage(s, path, owner, o);
    if blocked.None? {
      SqlLeft(s1, job, file, sql, o);
      var (s2, failed) := SqlStage(s1, job, file, sql, o);
      if failed.None? { AwaitLeft(s2, id, db.(serverNamespace := namespace), job, sql, o); }
    }
  }

  /** Every Ready condition that a pass over a database writes has its cause, and a Ready database has its owner Secret, its
      SQL and its completed Job in the namespace of the nearest server. */
  lemma PassTells(s: State, id: Id, prefix: string, o: Oracle)
    requires id in s.databases
    ensures var s' := Pass(s, id, prefix, o);
            && s'.databases == s.databases[id := s'.databases[id]] && s'.databases[id].spec == s.databases[id].spec
            && Told(s, s', id, o)
  {
    hide FindServer, ProvisionWith, PathOf, SqlOf, ServedTold, ValidIdentifier, IsServer;
    var db := s.databases[id];
    ServerIsNearest(s, id.namespace, db.spec);
    OneServer(s, id.namespace, db.spec);
    var server := FindServer(s, id.namespace, db.spec);
    if ValidSpec(db.spec) && server.Some? && Reconciled(server.value) {
      ProvisionTells(s, id, db, prefix, server.value, o);
    }
  }

  lemma OneServer(s: State, namespace: string, spec: DbSpec)
    ensures forall a, b :: IsServer(s, namespace, spec, a) && IsServer(s, namespace, spec, b) ==> a == b
  {
  }

  /** Whenever a pod of an active Job starts, also on a retry, it runs what the ConfigMap then holds. */
  lemma PodRunsTheFile(s: State, job: Id)
    requires job in s.jobs && s.jobs[job].phase == Active && s.jobs[job].file in s.configMaps
    ensures var s' := JobStarts(s, job);
            s' == s.(jobs := s.jobs[job := s'.jobs[job]]) && s'.jobs[job] == s.jobs[job].(ran := s'.jobs[job].ran)
            && s'.jobs[job].ran == Some(s.configMaps[s.jobs[job].file])
  {
  }

  // ---- the password's path ----

  lemma PathEnds(prefix: string, spec: DbSpec)
    requires spec.openbaoPath == ""
    ensures var path, tail := PathOf(prefix, spec), "/" + spec.server + "/" + spec.user;
            && |tail| <= |path| && path[|path| - |tail|..] == tail && path[..|path| - |tail|] == Strip(prefix, SLASH)
            && path == Strip(prefix, SLASH) + tail
  {
    hide Strip;
    var front, tail := Strip(prefix, SLASH), "/" + spec.server + "/" + spec.user;
    assert PathOf(prefix, spec) == front + tail;
    assert (front + tail)[|front|..] == tail && (front + tail)[..|front|] == front;
  }

  lemma TailsTell(a: string, x: string, b: string, y: string)
    requires SlashFree(a) && SlashFree(b) && "/" + a + "/" + x == "/" + b + "/" + y
    ensures a == b && x == y
  {
    assert ("/" + a + "/" + x)[1..] == a + ("/" + x) && ("/" + b + "/" + y)[1..] == b + ("/" + y);
    SlashSplit(a, "/" + x, b, "/" + y);
    assert ("/" + x)[1..] == x && ("/" + y)[1..] == y;
  }

  /** A path that the spec names is taken; otherwise it ends in server and user, and databases have one path exactly when they
      have one server and one user. */
  lemma PathsTellUsers(prefix: string, a: DbSpec, b: DbSpec)
    requires SlashFree(a.server) && SlashFree(b.server)
    ensures a.openbaoPath != "" ==> PathOf(prefix, a) == a.openbaoPath
    ensures a.openbaoPath == "" ==>
              var path, tail := PathOf(prefix, a), "/" + a.server + "/" + a.user;
              |tail| <= |path| && path[|path| - |tail|..] == tail && path[..|path| - |tail|] == Strip(prefix, SLASH)
    ensures a.openbaoPath == "" && b.openbaoPath == "" ==>
              (PathOf(prefix, a) == PathOf(prefix, b) <==> a.server == b.server && a.user == b.user)
  {
    if a.openbaoPath == "" { PathEnds(prefix, a); }
    if a.openbaoPath == "" && b.openbaoPath == "" {
      PathEnds(prefix, b);
      hide PathOf, Strip;
      if PathOf(prefix, a) == PathOf(prefix, b) {
        SameBehind(Strip(prefix, SLASH), "/" + a.server + "/" + a.user, "/" + b.server + "/" + b.user);
        TailsTell(a.server, a.user, b.server, b.user);
      }
    }
  }

  // ---- edits and deletions ----

  /** An edit of a database keeps what its passes have recorded. */
  lemma EditKeepsRecord(s: State, id: Id, spec: DbSpec, prefix: string)
    ensures var s' := Take(s, Put(id, spec), prefix);
            && s' == s.(databases := s'.databases) && id in s'.databases && s'.databases[id].spec == spec
            && (id in s.databases ==> s'.databases[id].serverNamespace == s.databases[id].serverNamespace
                                      && s'.databases[id].ready == s.databases[id].ready)
            && (id !in s.databases ==> s'.databases[id].serverNamespace == "" && s'.databases[id].ready == Unset)
            && (forall i :: i != id ==> (i in s'.databases <==> i in s.databases))
            && (forall i :: i != id && i in s.databases ==> s'.databases[i] == s.databases[i])
  {
  }

  lemma DropIsExact(s: State, job: Id)
    ensures var s' := DropJob(s, job);
            && s' == s.(jobs := s'.jobs, history := s'.history)
            && (forall i :: i in s'.jobs <==> i in s.jobs && i != job) && (forall i :: i in s'.jobs ==> s'.jobs[i] == s.jobs[i])
  {
  }

  /** Removing a database removes its Job, its owner Secret and its ConfigMap, each as far as its deletion goes through, and
      nothing else: the password, and what is on the server, stay. */
  lemma TeardownIsExact(s: State, id: Id, prefix: string, jobGone: bool, ownerGone: bool, fileGone: bool)
    requires id in s.databases
    ensures var s', namespace := Take(s, Delete(id, jobGone, ownerGone, fileGone), prefix), s.databases[id].serverNamespace;
            var job, owner, file := Id(namespace, JobName(id.name)), Id(namespace, OwnerName(id.name)), Id(namespace, ConfigMapName(id.name));
            && s' == s.(databases := s.databases - {id}, jobs := s'.jobs, owners := s'.owners, configMaps := s'.configMaps,
                        history := s'.history)
            && (forall i :: i in s'.jobs <==> i in s.jobs && !(jobGone && namespace != "" && i == job))
            && (forall i :: i in s'.jobs ==> s'.jobs[i] == s.jobs[i])
            && (forall i :: i in s'.owners <==> i in s.owners && !(ownerGone && namespace != "" && i == owner))
            && (forall i :: i in s'.owners ==> s'.owners[i] == s.owners[i])
            && (forall i :: i in s'.configMaps <==> i in s.configMaps && !(fileGone && namespace != "" && i == file))
            && (forall i :: i in s'.configMaps ==> s'.configMaps[i] == s.configMaps[i])
  {
    hide JobName, OwnerName, ConfigMapName, DropJob;
    var gone := s.(databases := s.databases - {id});
    DropIsExact(gone, Id(s.databases[id].serverNamespace, JobName(id.name)));
  }

  /** The names of a database's objects. */
  lemma ObjectNames()
    ensures JobName("shop") == "dbprov-shop" && OwnerName("shop") == "shop-owner" && ConfigMapName("shop") == "dbprov-shop-sql"
  {
    assert RStrip("dbprov-shop", Names.DASH) == "dbprov-shop";
  }
}
