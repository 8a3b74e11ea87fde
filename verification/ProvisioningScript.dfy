/** The provisioning script, read as the statements it consists of: what it does to a server from any state, that running
    it again changes nothing, and that a run which was cut short is made good by the next one. */
module ProvisioningScript {
  import opened Wrappers

  datatype Role = Role(login: bool, password: Option<string>, attributes: set<string>)

  datatype Database = Database(owner: string, grants: set<string>, contents: string)

  /** A server, and the psql variable `pw` of the session that runs the script. */
  datatype Server = Server(databases: map<string, Database>, roles: map<string, Role>, pw: Option<string>)

  datatype Statement =
    | GetPassword
    | CreateDatabaseIfMissing(database: string)
    | CreateRoleIfMissing(user: string)
    | SetLoginAndPassword(user: string)
    | GrantAll(database: string, user: string)
    | SetOwner(database: string, user: string)

  const ADMIN: string := "postgres"

  /** The statement's text. */
  function Lines(s: Statement): seq<string> {
    match s
    case GetPassword => ["\\getenv pw NEW_USER_PASSWORD"]
    case CreateDatabaseIfMissing(d) =>
      ["SELECT 'CREATE DATABASE \"" + d + "\"'",
       "WHERE NOT EXISTS" + " (SELECT 1 FROM pg_database" + " WHERE datname = '" + d + "')\\gexec"]
    case CreateRoleIfMissing(u) =>
      ["DO $do$", "BEGIN",
       "  IF NOT EXISTS" + " (SELECT 1 FROM pg_roles" + " WHERE rolname = '" + u + "') THEN",
       "    CREATE ROLE \"" + u + "\" LOGIN;",
       "  END IF;", "END", "$do$;"]
    case SetLoginAndPassword(u) => ["ALTER ROLE \"" + u + "\" WITH LOGIN PASSWORD :'pw';"]
    case GrantAll(d, u) => ["GRANT ALL PRIVILEGES" + " ON DATABASE \"" + d + "\" TO \"" + u + "\";"]
    case SetOwner(d, u) => ["ALTER DATABASE \"" + d + "\" OWNER TO \"" + u + "\";"]
  }

  /** The text that the Job runs, line by line. */
  function AllLines(script: seq<Statement>): seq<string> {
    if script == [] then [] else Lines(script[0]) + AllLines(script[1..])
  }

  function Script(database: string, user: string): seq<Statement> {
    [GetPassword, CreateDatabaseIfMissing(database), CreateRoleIfMissing(user), SetLoginAndPassword(user),
     GrantAll(database, user), SetOwner(database, user)]
  }

  /** One statement; `None` when the server rejects it (the script then stops). */
  function Execute(s: Server, statement: Statement, environment: string): Option<Server> {
    match statement
    case GetPassword => Some(s.(pw := Some(environment)))
    case CreateDatabaseIfMissing(d) =>
      Some(if d in s.databases then s else s.(databases := s.databases[d := Database(ADMIN, {}, "")]))
    case CreateRoleIfMissing(u) =>
      Some(if u in s.roles then s else s.(roles := s.roles[u := Role(true, None, {})]))
    case SetLoginAndPassword(u) =>
      if u in s.roles && s.pw.Some? then
        Some(s.(roles := s.roles[u := s.roles[u].(login := true, password := s.pw)]))
      else None
    case GrantAll(d, u) =>
      if d in s.databases && u in s.roles then
        Some(s.(databases := s.databases[d := s.databases[d].(grants := s.databases[d].grants + {u})]))
      else None
    case SetOwner(d, u) =>
      if d in s.databases && u in s.roles then Some(s.(databases := s.databases[d := s.databases[d].(owner := u)]))
      else None
  }

  function RunScript(s: Server, script: seq<Statement>, environment: string): Option<Server>
    decreases |script|
  {
    if script == [] then Some(s)
    else
      var next := Execute(s, script[0], environment);
      if next.None? then None else RunScript(next.value, script[1..], environment)
  }

  /** What the script is for, said of the server before and after it. */
  ghost predicate Provisioned(s: Server, s': Server, database: string, user: string, password: string) {
    && database in s'.databases && s'.databases[database].owner == user && user in s'.databases[database].grants
    && user in s'.roles && s'.roles[user].login && s'.roles[user].password == Some(password)
    && (database in s.databases ==>
          && s'.databases[database].contents == s.databases[database].contents
          && s'.databases[database].grants == s.databases[database].grants + {user})
    && (user in s.roles ==> s'.roles[user].attributes == s.roles[user].attributes)
    && s'.databases - {database} == s.databases - {database}
    && s'.roles - {user} == s.roles - {user}
  }

  lemma RunInTwo(s: Server, front: seq<Statement>, back: seq<Statement>, environment: string)
    ensures var middle := RunScript(s, front, environment);
            RunScript(s, front + back, environment)
            == if middle.None? then None else RunScript(middle.value, back, environment)
    decreases |front|
  {
    if front == [] {
      assert front + back == back;
    } else {
      assert (front + back)[1..] == front[1..] + back;
      var next := Execute(s, front[0], environment);
      if next.Some? { RunInTwo(next.value, front[1..], back, environment); }
    }
  }

  function Contents(s: Server, database: string): string {
    if database in s.databases then s.databases[database].contents else ""
  }

  function Grants(s: Server, database: string): set<string> {
    if database in s.databases then s.databases[database].grants else {}
  }

  function Attributes(s: Server, user: string): set<string> {
    if user in s.roles then s.roles[user].attributes else {}
  }

  /** How `p` can differ from `s` after the first `k` statements. */
  ghost predicate Reached(s: Server, p: Server, database: string, user: string, password: string, k: nat) {
    && p.databases - {database} == s.databases - {database} && p.roles - {user} == s.roles - {user}
    && Contents(p, database) == Contents(s, database) && Attributes(p, user) == Attributes(s, user)
    && Grants(p, database) + {user} == Grants(s, database) + {user}
    && (k > 0 ==> p.pw == Some(password))
    && (k > 1 ==> database in p.databases)
    && (k > 2 ==> user in p.roles)
    && (k > 3 ==> p.roles[user].login && p.roles[user].password == Some(password))
    && (k > 4 ==> user in p.databases[database].grants)
    && (k > 5 ==> p.databases[database].owner == user)
  }

  lemma StatementReaches(s: Server, p: Server, database: string, user: string, password: string, k: nat)
    requires 0 < k <= 6 && Reached(s, p, database, user, password, k - 1)
    ensures var next := Execute(p, Script(database, user)[k - 1], password);
            next.Some? && Reached(s, next.value, database, user, password, k)
  {
  }

  /** No statement of the script is ever rejected, so each prefix of it runs. */
  lemma {:induction false} PrefixRuns(s: Server, database: string, user: string, password: string, k: nat)
    requires k <= 6
    ensures var r := RunScript(s, Script(database, user)[..k], password);
            r.Some? && Reached(s, r.value, database, user, password, k)
  {
    var script := Script(database, user);
    if k > 0 {
      PrefixRuns(s, database, user, password, k - 1);
      var before := RunScript(s, script[..k - 1], password).value;
      StatementReaches(s, before, database, user, password, k);
      hide Reached, Execute;
      assert script[..k] == script[..k - 1] + [script[k - 1]];
      RunInTwo(s, script[..k - 1], [script[k - 1]], password);
      assert [script[k - 1]][1..] == [];
      var next := Execute(before, script[k - 1], password);
      assert RunScript(next.value, [], password) == next;
    }
  }

  /** The server after the whole script. */
  function Full(s: Server, database: string, user: string, password: string): Server {
    Server(s.databases[database := Database(user, Grants(s, database) + {user}, Contents(s, database))],
           s.roles[user := Role(true, Some(password), Attributes(s, user))], Some(password))
  }

  lemma SameElsewhere<T>(m: map<string, T>, n: map<string, T>, key: string, value: T)
    requires m - {key} == n - {key}
    ensures m[key := value] == n[key := value]
  {
    forall k | k in m && k != key ensures k in n && m[k] == n[k] {
      assert k in m - {key} && (m - {key})[k] == m[k];
    }
    forall k | k in n && k != key ensures k in m {
      assert k in n - {key};
    }
  }

  lemma ReachedAll(s: Server, p: Server, database: string, user: string, password: string)
    requires Reached(s, p, database, user, password, 6)
    ensures p == Full(s, database, user, password)
  {
    var d, r := p.databases[database], p.roles[user];
    assert d.grants == Grants(s, database) + {user};
    SameElsewhere(p.databases, s.databases, database, d);
    SameElsewhere(p.roles, s.roles, user, r);
    assert p.databases[database := d] == p.databases && p.roles[user := r] == p.roles;
  }

  lemma FullRuns(s: Server, database: string, user: string, password: string)
    ensures RunScript(s, Script(database, user), password) == Some(Full(s, database, user, password))
  {
    PrefixRuns(s, database, user, password, 6);
    assert Script(database, user)[..6] == Script(database, user);
    ReachedAll(s, RunScript(s, Script(database, user), password).value, database, user, password);
  }

  /** From any state the script runs to its end, provisions the database and the role, keeps what they held, and leaves
      every other database and role alone. */
  lemma ScriptProvisions(s: Server, database: string, user: string, password: string)
    ensures var r := RunScript(s, Script(database, user), password);
            r.Some? && Provisioned(s, r.value, database, user, password)
  {
    FullRuns(s, database, user, password);
  }

  /** A run that stopped anywhere, followed by a whole run, ends where one whole run ends; in particular a second run
      changes nothing. */
  lemma RetryCompletes(s: Server, database: string, user: string, password: string, k: nat)
    requires k <= 6
    ensures var stopped := RunScript(s, Script(database, user)[..k], password);
            && stopped.Some?
            && RunScript(stopped.value, Script(database, user), password) == RunScript(s, Script(database, user), password)
  {
    hide Reached, Full, Execute;
    PrefixRuns(s, database, user, password, k);
    var stopped := RunScript(s, Script(database, user)[..k], password).value;
    FullRuns(s, database, user, password);
    FullRuns(stopped, database, user, password);
    FullAfterReached(s, stopped, database, user, password, k);
  }

  lemma FullAfterReached(s: Server, p: Server, database: string, user: string, password: string, k: nat)
    requires Reached(s, p, database, user, password, k)
    ensures Full(p, database, user, password) == Full(s, database, user, password)
  {
    hide Contents, Grants, Attributes;
    SameElsewhere(p.databases, s.databases, database, Full(s, database, user, password).databases[database]);
    SameElsewhere(p.roles, s.roles, user, Full(s, database, user, password).roles[user]);
  }

  /** Scripts for different databases and different roles can run in either order. */
  lemma ScriptsCommute(s: Server, d1: string, u1: string, p1: string, d2: string, u2: string, p2: string)
    requires d1 != d2 && u1 != u2
    ensures var a, b := RunScript(s, Script(d1, u1), p1), RunScript(s, Script(d2, u2), p2);
            && a.Some? && b.Some?
            && var ab, ba := RunScript(a.value, Script(d2, u2), p2), RunScript(b.value, Script(d1, u1), p1);
            && ab.Some? && ba.Some? && ab.value.databases == ba.value.databases && ab.value.roles == ba.value.roles
  {
    hide Script, RunScript;
    FullRuns(s, d1, u1, p1);
    FullRuns(s, d2, u2, p2);
    FullRuns(Full(s, d1, u1, p1), d2, u2, p2);
    FullRuns(Full(s, d2, u2, p2), d1, u1, p1);
  }
}
