/** The database reconciler as a transition system: generate-once passwords in OpenBao, a create-only owner Secret, the
    ConfigMap that holds the provisioning SQL, and an immutable Job that is recreated when the SQL changes. SSO
    reconciles share the same OpenBao. */
module DatabaseModel {
  import opened Text
  import opened Wrappers
  import Names
  import Script = ProvisioningScript
  import Secrets = ScopedSecrets

  datatype Id = Id(namespace: string, name: string)

  datatype DbSpec = DbSpec(client: string, server: string, database: string, user: string, openbaoPath: string,
                           initSql: seq<string>, deliver: string)

  datatype Reason = InvalidSpec | DependencyNotMet | BackendError | Reconciling

  datatype Ready = Unset | NotReady(reason: Reason) | IsReady

  datatype Db = Db(spec: DbSpec, serverNamespace: string, ready: Ready)

  /** What a DatabaseServer has published in its status ("" until then). */
  datatype Server = Server(namespace: string, host: string, adminSecret: string)

  datatype JobPhase = Active | Complete | JobFailed

  /** A provisioning Job: the SQL whose hash it is stamped with, the ConfigMap it mounts, and the SQL that its latest
      pod has run. */
  datatype Job = Job(stamp: string, file: Id, ran: Option<string>, phase: JobPhase)

  datatype Event =
    | JobCreated(job: Id, sql: string)
    | JobDeleted(job: Id)
    | JobEnded(job: Id, outcome: Job)
    | BecameReady(db: Id, job: Id, sql: string)

  datatype State = State(databases: map<Id, Db>, servers: map<Id, Server>, clientNamespaces: map<string, string>,
                         kv: Secrets.KV, owners: map<Id, string>, configMaps: map<Id, string>, jobs: map<Id, Job>,
                         history: seq<Event>)

  /** What a pass meets: which calls succeed, the password that would be generated, whether the Job's pod starts between
      the write of the ConfigMap and the look at the Job, and whether the Job ends before it is read. */
  datatype Oracle = Oracle(bao: bool, generated: string, owner: bool, configMap: bool, starts: bool, job: bool,
                           ends: Option<bool>, deliver: bool)

  const MAX_NAME: nat := 253
  const MAX_IDENTIFIER: nat := 63
  const SLASH: set<char> := {'/'}

  // ---- names and paths ----

  function JobName(name: string): string {
    RStrip(Clip("dbprov-" + name, MAX_IDENTIFIER), Names.DASH)
  }

  function OwnerName(name: string): string {
    Clip(name + "-owner", MAX_NAME)
  }

  function ConfigMapName(name: string): string {
    Clip("dbprov-" + name + "-sql", MAX_NAME)
  }

  /** Where a database's password lives in OpenBao: keyed by server and user, unless the spec names a path. */
  function PathOf(prefix: string, spec: DbSpec): string {
    if spec.openbaoPath != "" then spec.openbaoPath else Strip(prefix, SLASH) + "/" + spec.server + "/" + spec.user
  }

  predicate ValidIdentifier(s: string) {
    && 0 < |s| <= MAX_IDENTIFIER
    && ('a' <= s[0] <= 'z' || s[0] == '_')
    && forall i :: 0 <= i < |s| ==> 'a' <= s[i] <= 'z' || '0' <= s[i] <= '9' || s[i] == '_'
  }

  // ---- generate once ----

  predicate Present(data: Secrets.Secrets, key: string) {
    key in data && data[key] != ""
  }

  /** The map after `ensure_keys`: a wanted key without a value gets a generated one, nothing else changes. */
  function Ensured(data: Secrets.Secrets, want: seq<string>, generate: string -> string): Secrets.Secrets {
    map k | k in data.Keys + (set w | w in want) ::
      if k in data && (k !in want || data[k] != "") then data[k] else generate(k)
  }

  predicate AllPresent(data: Secrets.Secrets, want: seq<string>) {
    forall k :: k in want ==> Present(data, k)
  }

  /** `ensure_keys` on the store. Nothing is written when every wanted key has a value. */
  function EnsureKeys(kv: Secrets.KV, path: string, want: seq<string>, generate: string -> string): Secrets.KV {
    var data := Secrets.Get(kv, Secrets.Key(path));
    if AllPresent(data, want) then kv else kv[Secrets.Key(path) := Ensured(data, want, generate)]
  }

  const PASSWORD: seq<string> := ["password"]
  const CLIENT_KEYS: seq<string> := ["client-id", "client-secret"]

  function WithPassword(kv: Secrets.KV, path: string, generated: string): Secrets.KV {
    EnsureKeys(kv, path, PASSWORD, _ => generated)
  }

  function WithClient(kv: Secrets.KV, path: string, clientId: string, clientSecret: string): Secrets.KV {
    EnsureKeys(kv, path, CLIENT_KEYS, (k: string) => if k == "client-id" then clientId else clientSecret)
  }

  // ---- the Job ----

  /** A pod starts, or is retried: it reads the mounted ConfigMap. */
  function JobStarts(s: State, job: Id): State {
    if job in s.jobs && s.jobs[job].phase == Active && s.jobs[job].file in s.configMaps then
      s.(jobs := s.jobs[job := s.jobs[job].(ran := Some(s.configMaps[s.jobs[job].file]))])
    else s
  }

  /** The Job ends; it can complete only if its pod has run. */
  function JobEnds(s: State, job: Id, succeeds: bool): State {
    if job in s.jobs && s.jobs[job].phase == Active && (succeeds ==> s.jobs[job].ran.Some?) then
      var outcome := s.jobs[job].(phase := if succeeds then Complete else JobFailed);
      s.(jobs := s.jobs[job := outcome], history := s.history + [JobEnded(job, outcome)])
    else s
  }

  function DropJob(s: State, job: Id): State {
    if job in s.jobs then s.(jobs := s.jobs - {job}, history := s.history + [JobDeleted(job)]) else s
  }

  /** Create if absent; delete if the stamped hash is not that of the SQL. */
  function AppliedJobs(jobs: map<Id, Job>, job: Id, file: Id, sql: string): map<Id, Job> {
    if job !in jobs then jobs[job := Job(sql, file, None, Active)]
    else if jobs[job].stamp != sql then jobs - {job}
    else jobs
  }

  function AppliedEvents(jobs: map<Id, Job>, job: Id, sql: string): seq<Event> {
    if job !in jobs then [JobCreated(job, sql)] else if jobs[job].stamp != sql then [JobDeleted(job)] else []
  }

  function ApplyJob(s: State, job: Id, file: Id, sql: string): State {
    s.(jobs := AppliedJobs(s.jobs, job, file, sql), history := s.history + AppliedEvents(s.jobs, job, sql))
  }

  // ---- one pass ----

  datatype Staged = Staged(state: State, db: Db, blocked: Option<Reason>)

  function FindServer(s: State, namespace: string, spec: DbSpec): Option<Server> {
    if Id(namespace, spec.server) in s.servers then Some(s.servers[Id(namespace, spec.server)])
    else
      var home := if spec.client in s.clientNamespaces then s.clientNamespaces[spec.client] else "";
      if home != "" && home != namespace && Id(home, spec.server) in s.servers then Some(s.servers[Id(home, spec.server)])
      else None
  }

  predicate Published(server: Server) {
    server.namespace != "" && server.host != "" && server.adminSecret != ""
  }

  function SpecProblem(s: State, namespace: string, spec: DbSpec): Option<Reason> {
    if spec.client == "" || spec.server == "" || !ValidIdentifier(spec.database) || !ValidIdentifier(spec.user) then
      Some(InvalidSpec)
    else
      var server := FindServer(s, namespace, spec);
      if server.None? || !Published(server.value) then Some(DependencyNotMet) else None
  }

  /** The create-only owner Secret. */
  function CreateOwner(owners: map<Id, string>, at: Id, password: string): map<Id, string> {
    if at in owners then owners else owners[at := password]
  }

  function PasswordAt(kv: Secrets.KV, path: string): string {
    var data := Secrets.Get(kv, Secrets.Key(path));
    if "password" in data then data["password"] else ""
  }

  /** The credentials: the password in OpenBao, then the owner Secret. */
  function CredentialStage(s: State, path: string, owner: Id, o: Oracle): (State, Option<Reason>) {
    if !o.bao then (s, Some(BackendError))
    else
      var kv := WithPassword(s.kv, path, o.generated);
      if !o.owner then (s.(kv := kv), Some(BackendError))
      else (s.(kv := kv, owners := CreateOwner(s.owners, owner, PasswordAt(kv, path))), None)
  }

  /** The SQL: the ConfigMap first, then the Job. */
  function SqlStage(s: State, job: Id, file: Id, sql: string, o: Oracle): (State, Option<Reason>) {
    if !o.configMap then (s, Some(BackendError))
    else
      var s1 := s.(configMaps := s.configMaps[file := sql]);
      var s2 := if o.starts then JobStarts(s1, job) else s1;
      if !o.job then (s2, Some(BackendError)) else (ApplyJob(s2, job, file, sql), None)
  }

  /** The Job is read back, and its outcome decides. */
  function JobOutcome(s: State, job: Id): Option<Reason> {
    if job in s.jobs && s.jobs[job].phase == JobFailed then Some(BackendError)
    else if !(job in s.jobs && s.jobs[job].phase == Complete) then Some(Reconciling)
    else None
  }

  /** The Job may run and end before it is read. */
  function Progress(s: State, job: Id, ends: Option<bool>): State {
    if ends.Some? then JobEnds(JobStarts(s, job), job, ends.value) else s
  }

  function AwaitStage(s: State, id: Id, db: Db, job: Id, sql: string, o: Oracle): Staged {
    var s1 := Progress(s, job, o.ends);
    var outcome := JobOutcome(s1, job);
    if outcome.Some? then Staged(s1, db, outcome)
    else if db.spec.deliver != "" && !o.deliver then Staged(s1, db, Some(BackendError))
    else Staged(s1.(history := s1.history + [BecameReady(id, job, sql)]), db, None)
  }

  function ProvisionWith(s: State, id: Id, db: Db, namespace: string, path: string, sql: string, o: Oracle): Staged {
    var (s1, blocked) := CredentialStage(s, path, Id(namespace, OwnerName(id.name)), o);
    if blocked.Some? then Staged(s1, db, blocked)
    else
      var job, file := Id(namespace, JobName(id.name)), Id(namespace, ConfigMapName(id.name));
      var (s2, failed) := SqlStage(s1, job, file, sql, o);
      if failed.Some? then Staged(s2, db, failed)
      else AwaitStage(s2, id, db.(serverNamespace := namespace), job, sql, o)
  }

  function SqlOf(spec: DbSpec): string {
    Join(Script.AllLines(Script.Script(spec.database, spec.user))
              + if spec.initSql != [] then ["\\c \"" + spec.database + "\""] + spec.initSql else [])
  }

  function Stages(s: State, id: Id, db: Db, prefix: string, o: Oracle): Staged {
    var problem := SpecProblem(s, id.namespace, db.spec);
    if problem.Some? then Staged(s, db, problem)
    else ProvisionWith(s, id, db, FindServer(s, id.namespace, db.spec).value.namespace, PathOf(prefix, db.spec),
                       SqlOf(db.spec), o)
  }

  function Finish(r: Staged, id: Id): State {
    var ready := if r.blocked.Some? then NotReady(r.blocked.value) else IsReady;
    r.state.(databases := r.state.databases[id := r.db.(ready := ready)])
  }

  function Pass(s: State, id: Id, prefix: string, o: Oracle): State {
    if id !in s.databases then s else Finish(Stages(s, id, s.databases[id], prefix, o), id)
  }

  /** The finalizer's three best-effort deletions. The data in the server, and the password in OpenBao, stay. */
  function Finalize(s: State, id: Id, job: bool, owner: bool, file: bool): State {
    if id !in s.databases then s
    else
      var namespace := s.databases[id].serverNamespace;
      var gone := s.(databases := s.databases - {id});
      if namespace == "" then gone
      else
        var dropped := if job then DropJob(gone, Id(namespace, JobName(id.name))) else gone;
        dropped.(owners := if owner then dropped.owners - {Id(namespace, OwnerName(id.name))} else dropped.owners,
                 configMaps := if file then dropped.configMaps - {Id(namespace, ConfigMapName(id.name))} else dropped.configMaps)
  }

  // ---- everything that can happen ----

  datatype Step =
    | Surroundings(servers: map<Id, Server>, clientNamespaces: map<string, string>)
    | Put(id: Id, spec: DbSpec)
    | Delete(id: Id, jobGone: bool, ownerGone: bool, fileGone: bool)
    | Reconcile(id: Id, oracle: Oracle)
    | PodStarts(job: Id)
    | JobFinishes(job: Id, succeeds: bool)
    | ReconcileSso(path: string, clientId: string, clientSecret: string, answers: bool)

  function Edited(s: State, id: Id, spec: DbSpec): State {
    s.(databases := s.databases[id := if id in s.databases then s.databases[id].(spec := spec) else Db(spec, "", Unset)])
  }

  function Sso(s: State, path: string, clientId: string, clientSecret: string, answers: bool): State {
    if !answers then s
    else s.(kv := WithClient(s.kv, path, clientId, clientSecret))
  }

  function Take(s: State, step: Step, prefix: string): State {
    match step
    case Surroundings(servers, homes) => s.(servers := servers, clientNamespaces := homes)
    case Put(id, spec) => Edited(s, id, spec)
    case Delete(id, job, owner, file) => Finalize(s, id, job, owner, file)
    case Reconcile(id, o) => Pass(s, id, prefix, o)
    case PodStarts(job) => JobStarts(s, job)
    case JobFinishes(job, succeeds) => JobEnds(s, job, succeeds)
    case ReconcileSso(path, clientId, clientSecret, answers) => Sso(s, path, clientId, clientSecret, answers)
  }

  function Run(s: State, steps: seq<Step>, prefix: string): State
    decreases |steps|
  {
    if |steps| == 0 then s else Run(Take(s, steps[0], prefix), steps[1..], prefix)
  }

  const FRESH: State := State(map[], map[], map[], map[], map[], map[], map[], [])
}
