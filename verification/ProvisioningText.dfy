/** The provisioning script as the text that it is: a reader of psql scripts, written apart from the printer, tells guarded
    statements from unguarded ones, and what it reads is run. */
module ProvisioningText {
  import opened Text
  import opened Wrappers
  import opened ProvisioningScript
  import Model = DatabaseModel

  datatype Action =
    | ReadEnvironment(variable: string, name: string)
    | CreateDatabase(database: string)
    | CreateRole(role: string)
    | SetPassword(role: string, variable: string)
    | Grant(database: string, role: string)
    | Own(database: string, role: string)
    | Connect(database: string)
    | Other(text: string)

  datatype Guard = Always | UnlessDatabase(name: string) | UnlessRole(name: string)

  datatype Command = Command(guard: Guard, action: Action)

  // ---- the reader ----

  /** What stands before the first `c`, and what after it. */
  function UpTo(s: string, c: char): Option<(string, string)> {
    if s == "" then None
    else if s[0] == c then Some(("", s[1..]))
    else
      var rest := UpTo(s[1..], c);
      if rest.None? then None else Some(([s[0]] + rest.value.0, rest.value.1))
  }

  /** Key words, something in quotes, and what follows. */
  function Named(s: string, words: string, quote: char): Option<(string, string)> {
    if words + [quote] <= s then UpTo(s[|words| + 1..], quote) else None
  }

  /** A statement without its semicolon. */
  function ActionOf(text: string): Action {
    var created, role := Named(text, "CREATE DATABASE ", '"'), Named(text, "CREATE ROLE ", '"');
    var altered, moved := Named(text, "ALTER ROLE ", '"'), Named(text, "ALTER DATABASE ", '"');
    var granted := Named(text, "GRANT ALL PRIVILEGES" + " ON DATABASE ", '"');
    if created.Some? && created.value.1 == "" then CreateDatabase(created.value.0)
    else if role.Some? && role.value.1 == " LOGIN" then CreateRole(role.value.0)
    else if altered.Some? then
      var password := Named(altered.value.1, " WITH LOGIN PASSWORD :", '\'');
      if password.Some? && password.value.1 == "" then SetPassword(altered.value.0, password.value.0) else Other(text)
    else if granted.Some? then
      var to := Named(granted.value.1, " TO ", '"');
      if to.Some? && to.value.1 == "" then Grant(granted.value.0, to.value.0) else Other(text)
    else if moved.Some? then
      var to := Named(moved.value.1, " OWNER TO ", '"');
      if to.Some? && to.value.1 == "" then Own(moved.value.0, to.value.0) else Other(text)
    else Other(text)
  }

  /** A command of psql itself. */
  function MetaOf(line: string): Action {
    var connected := Named(line, "\\c ", '"');
    if connected.Some? && connected.value.1 == "" then Connect(connected.value.0)
    else if "\\getenv " <= line && UpTo(line[8..], ' ').Some? then
      var (variable, name) := UpTo(line[8..], ' ').value;
      ReadEnvironment(variable, name)
    else Other(line)
  }

  predicate Ended(line: string) {
    line != "" && line[|line| - 1] == ';'
  }

  function LineOf(line: string): Action {
    if line != "" && line[0] == '\\' then MetaOf(line)
    else if Ended(line) then ActionOf(line[..|line| - 1])
    else Other(line)
  }

  /** A query that yields a statement, on the condition that no such database exists, and runs what it yields. */
  function Generated(lines: seq<string>): Option<Command> {
    if |lines| < 2 then None
    else
      var text := Named(lines[0], "SELECT ", '\'');
      var guard := Named(lines[1], "WHERE NOT EXISTS" + " (SELECT 1 FROM pg_database" + " WHERE datname = ", '\'');
      if text.Some? && text.value.1 == "" && guard.Some? && guard.value.1 == ")\\gexec" then
        Some(Command(UnlessDatabase(guard.value.0), ActionOf(text.value.0)))
      else None
  }

  /** A block that runs one statement on the condition that no such role exists. */
  function Block(lines: seq<string>): Option<Command> {
    if |lines| < 7 then None
    else
      var guard := Named(lines[2], "  IF NOT EXISTS" + " (SELECT 1 FROM pg_roles" + " WHERE rolname = ", '\'');
      if lines[0] == "DO $do$" && lines[1] == "BEGIN" && guard.Some? && guard.value.1 == ") THEN"
         && "    " <= lines[3] && Ended(lines[3]) && lines[4..7] == ["  END IF;", "END", "$do$;"] then
        Some(Command(UnlessRole(guard.value.0), LineOf(lines[3][4..])))
      else None
  }

  /** The commands of a script. */
  function Read(lines: seq<string>): seq<Command>
    decreases |lines|
  {
    if |lines| == 0 then []
    else if Generated(lines).Some? then [Generated(lines).value] + Read(lines[2..])
    else if Block(lines).Some? then [Block(lines).value] + Read(lines[7..])
    else [Command(Always, LineOf(lines[0]))] + Read(lines[1..])
  }

  // ---- running what was read ----

  /** A psql session: the server with the session's variable, and the database it is connected to. */
  datatype Session = Session(server: Server, database: string)

  /** What the statements of the chart do is left open. */
  type Effect = (string, Session) -> Option<Session>

  /** `None` when the server rejects the statement; creating what is there is rejected. */
  function Act(s: Session, a: Action, environment: map<string, string>, other: Effect): Option<Session> {
    var server := s.server;
    match a
    case ReadEnvironment(variable, name) =>
      Some(if variable == "pw" && name in environment then s.(server := server.(pw := Some(environment[name]))) else s)
    case CreateDatabase(d) =>
      if d in server.databases then None
      else Some(s.(server := server.(databases := server.databases[d := Database(ADMIN, {}, "")])))
    case CreateRole(u) =>
      if u in server.roles then None else Some(s.(server := server.(roles := server.roles[u := Role(true, None, {})])))
    case SetPassword(u, variable) =>
      if u in server.roles && variable == "pw" && server.pw.Some? then
        Some(s.(server := server.(roles := server.roles[u := server.roles[u].(login := true, password := server.pw)])))
      else None
    case Grant(d, u) =>
      if d in server.databases && u in server.roles then
        var grants := server.databases[d].grants + {u};
        Some(s.(server := server.(databases := server.databases[d := server.databases[d].(grants := grants)])))
      else None
    case Own(d, u) =>
      if d in server.databases && u in server.roles then
        Some(s.(server := server.(databases := server.databases[d := server.databases[d].(owner := u)])))
      else None
    case Connect(d) => if d in server.databases then Some(s.(database := d)) else None
    case Other(text) => other(text, s)
  }

  predicate Skipped(s: Session, guard: Guard) {
    match guard
    case Always => false
    case UnlessDatabase(name) => name in s.server.databases
    case UnlessRole(name) => name in s.server.roles
  }

  function Perform(s: Session, c: Command, environment: map<string, string>, other: Effect): Option<Session> {
    if Skipped(s, c.guard) then Some(s) else Act(s, c.action, environment, other)
  }

  /** With ON_ERROR_STOP, a script ends at the first rejection. */
  function Go(s: Session, commands: seq<Command>, environment: map<string, string>, other: Effect): Option<Session>
    decreases |commands|
  {
    if commands == [] then Some(s)
    else
      var next := Perform(s, commands[0], environment, other);
      if next.None? then None else Go(next.value, commands[1..], environment, other)
  }

  /** Running the text of a script. */
  function GoText(s: Session, text: string, environment: map<string, string>, other: Effect): Option<Session> {
    Go(s, Read(Split(text)), environment, other)
  }

  // ---- reading each statement ----

  lemma {:induction false} UpToFirst(front: string, c: char, back: string)
    requires c !in front
    ensures UpTo(front + [c] + back, c) == Some((front, back))
  {
    var s := front + [c] + back;
    if front == "" {
      assert s[1..] == back;
    } else {
      assert s[1..] == front[1..] + [c] + back;
      UpToFirst(front[1..], c, back);
      assert front == [front[0]] + front[1..];
    }
  }

  lemma NamedIs(words: string, quote: char, name: string, rest: string, s: string)
    requires quote !in name && s == words + [quote] + name + [quote] + rest
    ensures Named(s, words, quote) == Some((name, rest))
  {
    UpToFirst(name, quote, rest);
    assert s[|words| + 1..] == name + [quote] + rest;
    assert words + [quote] == s[..|words| + 1];
  }

  lemma OtherWords(words: string, quote: char, s: string, k: nat)
    requires k < |words| && k < |s| && words[k] != s[k]
    ensures Named(s, words, quote) == None
  {
    assert (words + [quote])[k] == words[k];
  }

  /** The command that a statement is. */
  function Meant(s: Statement): Command {
    match s
    case GetPassword => Command(Always, ReadEnvironment("pw", "NEW_USER_PASSWORD"))
    case CreateDatabaseIfMissing(d) => Command(UnlessDatabase(d), CreateDatabase(d))
    case CreateRoleIfMissing(u) => Command(UnlessRole(u), CreateRole(u))
    case SetLoginAndPassword(u) => Command(Always, SetPassword(u, "pw"))
    case GrantAll(d, u) => Command(Always, Grant(d, u))
    case SetOwner(d, u) => Command(Always, Own(d, u))
  }

  predicate Plain(name: string) {
    '"' !in name && '\'' !in name
  }

  lemma DatabaseIsCreated(d: string)
    requires Plain(d)
    ensures ActionOf("CREATE DATABASE \"" + d + "\"") == CreateDatabase(d)
  {
    NamedIs("CREATE DATABASE ", '"', d, "", "CREATE DATABASE \"" + d + "\"");
  }

  lemma RoleIsCreated(u: string)
    requires Plain(u)
    ensures ActionOf("CREATE ROLE \"" + u + "\" LOGIN") == CreateRole(u)
  {
    var text := "CREATE ROLE \"" + u + "\" LOGIN";
    hide Named;
    OtherWords("CREATE DATABASE ", '"', text, 7);
    NamedIs("CREATE ROLE ", '"', u, " LOGIN", text);
  }

  lemma PasswordIsSet(u: string)
    requires Plain(u)
    ensures ActionOf("ALTER ROLE \"" + u + "\" WITH LOGIN PASSWORD :'pw'") == SetPassword(u, "pw")
  {
    var text := "ALTER ROLE \"" + u + "\" WITH LOGIN PASSWORD :'pw'";
    hide Named;
    OtherWords("CREATE DATABASE ", '"', text, 0);
    OtherWords("CREATE ROLE ", '"', text, 0);
    NamedIs("ALTER ROLE ", '"', u, " WITH LOGIN PASSWORD :'pw'", text);
    NamedIs(" WITH LOGIN PASSWORD :", '\'', "pw", "", " WITH LOGIN PASSWORD :'pw'");
  }

  lemma AllIsGranted(d: string, u: string)
    requires Plain(d) && Plain(u)
    ensures ActionOf("GRANT ALL PRIVILEGES" + " ON DATABASE \"" + d + "\" TO \"" + u + "\"") == Grant(d, u)
  {
    var text := "GRANT ALL PRIVILEGES" + " ON DATABASE \"" + d + "\" TO \"" + u + "\"";
    hide Named;
    OtherWords("CREATE DATABASE ", '"', text, 0);
    OtherWords("CREATE ROLE ", '"', text, 0);
    OtherWords("ALTER ROLE ", '"', text, 0);
    var rest := " TO \"" + u + "\"";
    NamedIs("GRANT ALL PRIVILEGES" + " ON DATABASE ", '"', d, rest, text);
    NamedIs(" TO ", '"', u, "", rest);
  }

  lemma OwnerIsSet(d: string, u: string)
    requires Plain(d) && Plain(u)
    ensures ActionOf("ALTER DATABASE \"" + d + "\" OWNER TO \"" + u + "\"") == Own(d, u)
  {
    var text := "ALTER DATABASE \"" + d + "\" OWNER TO \"" + u + "\"";
    hide Named;
    OtherWords("CREATE DATABASE ", '"', text, 0);
    OtherWords("CREATE ROLE ", '"', text, 0);
    OtherWords("ALTER ROLE ", '"', text, 6);
    OtherWords("GRANT ALL PRIVILEGES" + " ON DATABASE ", '"', text, 0);
    var rest := " OWNER TO \"" + u + "\"";
    NamedIs("ALTER DATABASE ", '"', d, rest, text);
    NamedIs(" OWNER TO ", '"', u, "", rest);
  }

  // ---- reading the script ----

  lemma LineIsRead(line: string, rest: seq<string>)
    requires line != "" && line[0] != 'S' && line[0] != 'D'
    ensures Read([line] + rest) == [Command(Always, LineOf(line))] + Read(rest)
  {
    hide LineOf;
    OtherWords("SELECT ", '\'', line, 0);
    assert ([line] + rest)[1..] == rest;
  }

  lemma StatementLine(text: string, line: string)
    requires text != "" && text[0] != '\\' && line == text + ";"
    ensures LineOf(line) == ActionOf(text)
  {
    hide ActionOf;
    assert line[..|line| - 1] == text;
  }

  lemma ReadingIsRead(variable: string, name: string)
    requires ' ' !in variable
    ensures LineOf("\\getenv " + (variable + " " + name)) == ReadEnvironment(variable, name)
  {
    var line := "\\getenv " + (variable + " " + name);
    OtherWords("\\c ", '"', line, 1);
    assert line[8..] == variable + [' '] + name;
    UpToFirst(variable, ' ', name);
  }

  lemma EnvironmentIsRead()
    ensures LineOf("\\getenv pw NEW_USER_PASSWORD") == ReadEnvironment("pw", "NEW_USER_PASSWORD")
  {
    hide LineOf;
    ReadingIsRead("pw", "NEW_USER_PASSWORD");
    assert "\\getenv pw NEW_USER_PASSWORD" == "\\getenv " + ("pw" + " " + "NEW_USER_PASSWORD");
  }

  lemma ConnectionIsRead(d: string)
    requires Plain(d)
    ensures LineOf("\\c \"" + d + "\"") == Connect(d)
  {
    NamedIs("\\c ", '"', d, "", "\\c \"" + d + "\"");
  }

  lemma DatabaseIsRead(d: string, rest: seq<string>)
    requires Plain(d)
    ensures Read(Lines(CreateDatabaseIfMissing(d)) + rest) == [Command(UnlessDatabase(d), CreateDatabase(d))] + Read(rest)
  {
    var lines := Lines(CreateDatabaseIfMissing(d)) + rest;
    var text := "CREATE DATABASE \"" + d + "\"";
    hide Named, ActionOf;
    DatabaseIsCreated(d);
    NamedIs("SELECT ", '\'', text, "", lines[0]);
    NamedIs("WHERE NOT EXISTS" + " (SELECT 1 FROM pg_database" + " WHERE datname = ", '\'', d, ")\\gexec", lines[1]);
    assert lines[2..] == rest;
  }

  lemma RoleIsRead(u: string, rest: seq<string>)
    requires Plain(u)
    ensures Read(Lines(CreateRoleIfMissing(u)) + rest) == [Command(UnlessRole(u), CreateRole(u))] + Read(rest)
  {
    var lines := Lines(CreateRoleIfMissing(u)) + rest;
    var text := "CREATE ROLE \"" + u + "\" LOGIN";
    hide Named, ActionOf;
    RoleIsCreated(u);
    OtherWords("SELECT ", '\'', lines[0], 0);
    NamedIs("  IF NOT EXISTS" + " (SELECT 1 FROM pg_roles" + " WHERE rolname = ", '\'', u, ") THEN", lines[2]);
    assert lines[3][4..] == text + ";";
    StatementLine(text, lines[3][4..]);
    assert lines[7..] == rest;
  }

  lemma PasswordIsRead(u: string, rest: seq<string>)
    requires Plain(u)
    ensures Read(Lines(SetLoginAndPassword(u)) + rest) == [Command(Always, SetPassword(u, "pw"))] + Read(rest)
  {
    hide Read, ActionOf, LineOf;
    PasswordIsSet(u);
    var text := "ALTER ROLE \"" + u + "\" WITH LOGIN PASSWORD :'pw'";
    StatementLine(text, Lines(SetLoginAndPassword(u))[0]);
    LineIsRead(text + ";", rest);
  }

  lemma GrantIsRead(d: string, u: string, rest: seq<string>)
    requires Plain(d) && Plain(u)
    ensures Read(Lines(GrantAll(d, u)) + rest) == [Command(Always, Grant(d, u))] + Read(rest)
  {
    hide Read, ActionOf, LineOf;
    AllIsGranted(d, u);
    var text := "GRANT ALL PRIVILEGES" + " ON DATABASE \"" + d + "\" TO \"" + u + "\"";
    StatementLine(text, Lines(GrantAll(d, u))[0]);
    LineIsRead(text + ";", rest);
  }

  lemma OwnerIsRead(d: string, u: string, rest: seq<string>)
    requires Plain(d) && Plain(u)
    ensures Read(Lines(SetOwner(d, u)) + rest) == [Command(Always, Own(d, u))] + Read(rest)
  {
    hide Read, ActionOf, LineOf;
    OwnerIsSet(d, u);
    var text := "ALTER DATABASE \"" + d + "\" OWNER TO \"" + u + "\"";
    StatementLine(text, Lines(SetOwner(d, u))[0]);
    LineIsRead(text + ";", rest);
  }

  predicate PlainNames(s: Statement) {
    match s
    case GetPassword => true
    case CreateDatabaseIfMissing(d) => Plain(d)
    case CreateRoleIfMissing(u) => Plain(u)
    case SetLoginAndPassword(u) => Plain(u)
    case GrantAll(d, u) => Plain(d) && Plain(u)
    case SetOwner(d, u) => Plain(d) && Plain(u)
  }

  /** Each statement's lines, whatever follows them, are read as the command that the statement is. */
  lemma StatementIsRead(s: Statement, rest: seq<string>)
    requires PlainNames(s)
    ensures Read(Lines(s) + rest) == [Meant(s)] + Read(rest)
  {
    hide Read, LineOf;
    match s
    case GetPassword => EnvironmentIsRead(); LineIsRead("\\getenv pw NEW_USER_PASSWORD", rest);
    case CreateDatabaseIfMissing(d) => DatabaseIsRead(d, rest);
    case CreateRoleIfMissing(u) => RoleIsRead(u, rest);
    case SetLoginAndPassword(u) => PasswordIsRead(u, rest);
    case GrantAll(d, u) => GrantIsRead(d, u, rest);
    case SetOwner(d, u) => OwnerIsRead(d, u, rest);
  }

  function AllMeant(script: seq<Statement>): (r: seq<Command>)
    ensures |r| == |script| && forall i :: 0 <= i < |r| ==> r[i] == Meant(script[i])
  {
    seq(|script|, i requires 0 <= i < |script| => Meant(script[i]))
  }

  lemma {:induction false} ScriptIsRead(script: seq<Statement>, rest: seq<string>)
    requires forall s :: s in script ==> PlainNames(s)
    ensures Read(AllLines(script) + rest) == AllMeant(script) + Read(rest)
    decreases |script|
  {
    hide Read, Lines, Meant, PlainNames;
    if script == [] {
      assert AllLines(script) + rest == rest;
    } else {
      assert AllLines(script) + rest == Lines(script[0]) + (AllLines(script[1..]) + rest);
      assert script[0] in script;
      StatementIsRead(script[0], AllLines(script[1..]) + rest);
      ScriptIsRead(script[1..], rest);
      assert AllMeant(script) == [Meant(script[0])] + AllMeant(script[1..]);
    }
  }

  // ---- running the script's text ----

  const ENVIRONMENT: string := "NEW_USER_PASSWORD"

  predicate Holds(environment: map<string, string>, password: string) {
    ENVIRONMENT in environment && environment[ENVIRONMENT] == password
  }

  /** What is read does what the statement does. */
  lemma MeantRuns(s: Session, statement: Statement, environment: map<string, string>, password: string, other: Effect)
    requires Holds(environment, password)
    ensures var next := Execute(s.server, statement, password);
            Perform(s, Meant(statement), environment, other)
            == if next.None? then None else Some(s.(server := next.value))
  {
  }

  lemma {:induction false} AllMeantRuns(s: Session, script: seq<Statement>, environment: map<string, string>, password: string,
                                        other: Effect)
    requires Holds(environment, password)
    ensures var r := RunScript(s.server, script, password);
            Go(s, AllMeant(script), environment, other) == if r.None? then None else Some(s.(server := r.value))
    decreases |script|
  {
    hide Execute, Meant, Holds, Perform;
    if script != [] {
      MeantRuns(s, script[0], environment, password, other);
      assert AllMeant(script)[1..] == AllMeant(script[1..]);
      var next := Execute(s.server, script[0], password);
      if next.Some? { AllMeantRuns(s.(server := next.value), script[1..], environment, password, other); }
    }
  }

  lemma {:induction false} GoInTwo(s: Session, front: seq<Command>, back: seq<Command>, environment: map<string, string>,
                                   other: Effect)
    ensures var middle := Go(s, front, environment, other);
            Go(s, front + back, environment, other)
            == if middle.None? then None else Go(middle.value, back, environment, other)
    decreases |front|
  {
    hide Perform;
    if front == [] {
      assert front + back == back;
    } else {
      assert (front + back)[1..] == front[1..] + back;
      var next := Perform(s, front[0], environment, other);
      if next.Some? { GoInTwo(next.value, front[1..], back, environment, other); }
    }
  }

  // ---- the stored text ----

  /** The lines of several texts, one after the other. */
  function AllSplit(texts: seq<string>): seq<string> {
    if texts == [] then [] else Split(texts[0]) + AllSplit(texts[1..])
  }

  lemma {:induction false} SplitJoin(texts: seq<string>)
    requires texts != []
    ensures Split(Join(texts)) == AllSplit(texts)
    decreases |texts|
  {
    hide Split;
    if |texts| == 1 {
      assert AllSplit(texts[1..]) == [];
    } else {
      SplitAt(texts[0], Join(texts[1..]));
      SplitJoin(texts[1..]);
    }
  }

  lemma {:induction false} AllSplitLines(lines: seq<string>, more: seq<string>)
    requires OneLines(lines)
    ensures AllSplit(lines + more) == lines + AllSplit(more)
    decreases |lines|
  {
    hide Split;
    if lines == [] {
      assert lines + more == more;
    } else {
      SplitOneLine(lines[0]);
      assert (lines + more)[1..] == lines[1..] + more;
      AllSplitLines(lines[1..], more);
      assert lines == [lines[0]] + lines[1..];
    }
  }

  lemma IdentifierIsPlain(name: string)
    requires Model.ValidIdentifier(name)
    ensures Plain(name) && OneLine(name)
  {
  }

  lemma OneTogether(a: string, b: string)
    requires OneLine(a) && OneLine(b)
    ensures OneLine(a + b)
  {
  }

  lemma QueryLine(d: string)
    requires OneLine(d)
    ensures OneLine("SELECT 'CREATE DATABASE \"" + d + "\"'")
  {
  }

  lemma DatabaseLines(d: string)
    requires OneLine(d)
    ensures OneLines(Lines(CreateDatabaseIfMissing(d)))
  {
    var a, b, c := "WHERE NOT EXISTS", " (SELECT 1 FROM pg_database", " WHERE datname = '";
    assert OneLine("SELECT 'CREATE DATABASE \"" + d + "\"'") by { QueryLine(d); }
    assert OneLine(a) && OneLine(b);
    assert OneLine(c) && OneLine("')\\gexec");
    hide OneLine;
    OneTogether(a, b);
    OneTogether(a + b, c);
    OneTogether(a + b + c, d);
    OneTogether(a + b + c + d, "')\\gexec");
  }

  lemma RoleLine(u: string)
    requires OneLine(u)
    ensures OneLine("    CREATE ROLE \"" + u + "\" LOGIN;")
  {
  }

  lemma RoleLines(u: string)
    requires OneLine(u)
    ensures OneLines(Lines(CreateRoleIfMissing(u)))
  {
    var a, b, c := "  IF NOT EXISTS", " (SELECT 1 FROM pg_roles", " WHERE rolname = '";
    assert OneLine("    CREATE ROLE \"" + u + "\" LOGIN;") by { RoleLine(u); }
    assert OneLine(a) && OneLine(b);
    assert OneLine(c) && OneLine("') THEN");
    assert OneLine("DO $do$") && OneLine("BEGIN") && OneLine("  END IF;") && OneLine("END") && OneLine("$do$;");
    hide OneLine;
    OneTogether(a, b);
    OneTogether(a + b, c);
    OneTogether(a + b + c, u);
    OneTogether(a + b + c + u, "') THEN");
  }

  lemma PasswordLines(u: string)
    requires OneLine(u)
    ensures OneLines(Lines(SetLoginAndPassword(u)))
  {
    var c := "\" WITH LOGIN PASSWORD :'pw';";
    assert OneLine("ALTER ROLE \"") && OneLine(c);
    hide OneLine;
    OneTogether("ALTER ROLE \"", u);
    OneTogether("ALTER ROLE \"" + u, c);
  }

  lemma GrantLines(d: string, u: string)
    requires OneLine(d) && OneLine(u)
    ensures OneLines(Lines(GrantAll(d, u)))
  {
    var a, b := "GRANT ALL PRIVILEGES", " ON DATABASE \"";
    assert OneLine(a) && OneLine(b);
    assert OneLine("\" TO \"") && OneLine("\";");
    hide OneLine;
    OneTogether(a, b);
    OneTogether(a + b, d);
    OneTogether(a + b + d, "\" TO \"");
    OneTogether(a + b + d + "\" TO \"", u);
    OneTogether(a + b + d + "\" TO \"" + u, "\";");
  }

  lemma OwnerLines(d: string, u: string)
    requires OneLine(d) && OneLine(u)
    ensures OneLines(Lines(SetOwner(d, u)))
  {
    assert OneLine("ALTER DATABASE \"" + d + "\" OWNER TO \"" + u + "\";");
  }

  lemma ScriptLinesAreOne(d: string, u: string)
    requires OneLine(d) && OneLine(u)
    ensures OneLines(AllLines(Script(d, u))) && AllLines(Script(d, u)) != []
  {
    var script := Script(d, u);
    assert OneLines(Lines(GetPassword));
    assert forall s :: s in script ==> Lines(s) != [];
    hide Lines, OneLines;
    DatabaseLines(d);
    RoleLines(u);
    PasswordLines(u);
    GrantLines(d, u);
    OwnerLines(d, u);
    AllLinesAreOne(script);
  }

  lemma {:induction false} AllLinesAreOne(script: seq<Statement>)
    requires forall s :: s in script ==> OneLines(Lines(s)) && Lines(s) != []
    ensures OneLines(AllLines(script)) && (script != [] ==> AllLines(script) != [])
    decreases |script|
  {
    hide Lines;
    if script != [] {
      assert script[0] in script;
      AllLinesAreOne(script[1..]);
    }
  }

  /** What the chart's own statements are read as, after the connection to the new database. */
  function InitCommands(spec: Model.DbSpec): seq<Command> {
    if spec.initSql == [] then [] else [Command(Always, Connect(spec.database))] + Read(AllSplit(spec.initSql))
  }

  lemma SqlIsRead(spec: Model.DbSpec)
    requires Model.ValidIdentifier(spec.database) && Model.ValidIdentifier(spec.user)
    ensures Read(Split(Model.SqlOf(spec))) == AllMeant(Script(spec.database, spec.user)) + InitCommands(spec)
  {
    var d, u := spec.database, spec.user;
    IdentifierIsPlain(d);
    IdentifierIsPlain(u);
    ScriptLinesAreOne(d, u);
    var script := Script(d, u);
    assert forall s :: s in script ==> PlainNames(s);
    hide Split, Join, Read, AllLines, Script, PlainNames, Meant, Model.ValidIdentifier, LineOf;
    var front := AllLines(script);
    var more := if spec.initSql != [] then ["\\c \"" + d + "\""] + spec.initSql else [];
    SplitJoin(front + more);
    AllSplitLines(front, more);
    ScriptIsRead(script, AllSplit(more));
    InitIsRead(spec, more);
  }

  lemma InitIsRead(spec: Model.DbSpec, more: seq<string>)
    requires Plain(spec.database) && OneLine(spec.database)
    requires more == if spec.initSql != [] then ["\\c \"" + spec.database + "\""] + spec.initSql else []
    ensures Read(AllSplit(more)) == InitCommands(spec)
  {
    if spec.initSql != [] {
      var line := "\\c \"" + spec.database + "\"";
      assert OneLine(line);
      ConnectionIsRead(spec.database);
      hide Split, Read, LineOf;
      AllSplitLines([line], spec.initSql);
      LineIsRead(line, AllSplit(spec.initSql));
    }
  }

  /** Where the Job's session starts. */
  function Start(s: Server): Session {
    Session(s, ADMIN)
  }

  lemma BaseRuns(s: Session, database: string, user: string, environment: map<string, string>, password: string, other: Effect)
    requires Holds(environment, password)
    ensures Go(s, AllMeant(Script(database, user)), environment, other)
            == Some(s.(server := Full(s.server, database, user, password)))
  {
    hide Script, Full, RunScript, Go;
    AllMeantRuns(s, Script(database, user), environment, password, other);
    FullRuns(s.server, database, user, password);
  }

  /** The text that the ConfigMap holds, read and run from any state of the server: it is never rejected before the chart's
      own statements, it provisions the database and the role, and these statements come last, in the new database. */
  lemma SqlProvisions(s: Server, spec: Model.DbSpec, environment: map<string, string>, password: string, other: Effect)
    returns (t: Server)
    requires Model.ValidIdentifier(spec.database) && Model.ValidIdentifier(spec.user) && Holds(environment, password)
    ensures Provisioned(s, t, spec.database, spec.user, password)
    ensures GoText(Start(s), Model.SqlOf(spec), environment, other)
            == if spec.initSql == [] then Some(Start(t))
               else Go(Session(t, spec.database), Read(AllSplit(spec.initSql)), environment, other)
  {
    var d, u := spec.database, spec.user;
    t := Full(s, d, u, password);
    ScriptProvisions(s, d, u, password);
    FullRuns(s, d, u, password);
    SqlIsRead(spec);
    BaseRuns(Start(s), d, u, environment, password, other);
    GoInTwo(Start(s), AllMeant(Script(d, u)), InitCommands(spec), environment, other);
    hide Full, Script, RunScript, Read, Split, Model.SqlOf, AllMeant, AllSplit;
    AfterBase(t, spec, environment, other);
  }

  lemma AfterBase(t: Server, spec: Model.DbSpec, environment: map<string, string>, other: Effect)
    requires spec.database in t.databases
    ensures Go(Start(t), InitCommands(spec), environment, other)
            == if spec.initSql == [] then Some(Start(t))
               else Go(Session(t, spec.database), Read(AllSplit(spec.initSql)), environment, other)
  {
    hide Read, AllSplit;
    if spec.initSql != [] {
      assert InitCommands(spec)[1..] == Read(AllSplit(spec.initSql));
    }
  }

  /** A run of the text that stopped anywhere in the platform's part, followed by a run in a new session, ends where one
      whole run ends; in particular a second run does only what the chart's statements do. */
  lemma SqlRetryCompletes(s: Server, spec: Model.DbSpec, environment: map<string, string>, password: string, other: Effect,
                          k: nat, pw: Option<string>)
    requires Model.ValidIdentifier(spec.database) && Model.ValidIdentifier(spec.user) && Holds(environment, password)
    requires k <= 6
    ensures |Read(Split(Model.SqlOf(spec)))| >= 6
    ensures var stopped := Go(Start(s), Read(Split(Model.SqlOf(spec)))[..k], environment, other);
            && stopped.Some?
            && GoText(Start(stopped.value.server.(pw := pw)), Model.SqlOf(spec), environment, other)
               == GoText(Start(s), Model.SqlOf(spec), environment, other)
  {
    var d, u := spec.database, spec.user;
    SqlIsRead(spec);
    assert |Script(d, u)| == 6;
    hide Reached, Full, Script, RunScript, Read, Split, Model.SqlOf, Meant, InitCommands, Holds, Model.ValidIdentifier;
    var script := Script(d, u);
    assert Read(Split(Model.SqlOf(spec)))[..k] == AllMeant(script[..k]);
    AllMeantRuns(Start(s), script[..k], environment, password, other);
    PrefixRuns(s, d, u, password, k);
    var stopped := RunScript(s, script[..k], password).value;
    FullAfterReached(s, stopped, d, u, password, k);
    assert Full(stopped.(pw := pw), d, u, password) == Full(stopped, d, u, password) by { SessionForgotten(stopped, d, u, password, pw); }
    BaseRuns(Start(s), d, u, environment, password, other);
    BaseRuns(Start(stopped.(pw := pw)), d, u, environment, password, other);
    GoInTwo(Start(s), AllMeant(script), InitCommands(spec), environment, other);
    GoInTwo(Start(stopped.(pw := pw)), AllMeant(script), InitCommands(spec), environment, other);
  }

  lemma SessionForgotten(s: Server, database: string, user: string, password: string, pw: Option<string>)
    ensures Full(s.(pw := pw), database, user, password) == Full(s, database, user, password)
  {
  }
}
