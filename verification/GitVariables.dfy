/** Scoped variables in git: each resource's manifest is read, changed and written back. Together the operations refine
    one map of variables per resource. */
module GitVariables {
  import opened Text
  import opened Wrappers
  import Names

  datatype Entry = Entry(name: string, value: string)

  /** A resource's spec: `settings` stands for every key but `variables`. */
  datatype Spec = Spec(settings: string, variables: Option<seq<Entry>>)

  datatype Manifest = Manifest(kind: string, client: string, name: string, spec: Spec)

  datatype Resource = Resource(client: string, plural: string, name: string)

  /** The manifests on the default branches, by repository and path. */
  type Docs = map<(string, string), Manifest>

  const KINDS: map<string, string> := map[
    "clients" := "Client", "domains" := "Domain", "databaseservers" := "DatabaseServer", "databases" := "Database",
    "environments" := "Environment", "applications" := "Application", "gitrepositories" := "GitRepository",
    "snapshots" := "Snapshot"]

  predicate Valid(r: Resource) {
    r.plural in KINDS && Names.ValidLabel(r.client) && Names.ValidLabel(r.name)
  }

  function RepoPath(plural: string, name: string): string {
    plural + "/" + name + ".yaml"
  }

  function At(r: Resource): (string, string) {
    (r.client, RepoPath(r.plural, r.name))
  }

  predicate Distinct(entries: seq<Entry>) {
    forall i, j :: 0 <= i < j < |entries| ==> entries[i].name != entries[j].name
  }

  /** `[v for v in entries if v["name"] != name]` */
  function Without(entries: seq<Entry>, name: string): (r: seq<Entry>)
    ensures |r| <= |entries| && forall e :: e in r <==> e in entries && e.name != name
  {
    if entries == [] then []
    else
      var last := entries[|entries| - 1];
      Without(entries[..|entries| - 1], name) + if last.name != name then [last] else []
  }

  function VariablesOf(m: Manifest): seq<Entry> {
    if m.spec.variables.Some? then m.spec.variables.value else []
  }

  // ---- the operations ----

  datatype Op =
    | Upsert(resource: Resource, spec: Spec)
    | SetVariable(resource: Resource, variable: string, value: string)
    | RemoveVariable(resource: Resource, variable: string)
    | Delete(resource: Resource)

  datatype Outcome = Done | SchemaError | NotFound

  function OutcomeOf(docs: Docs, op: Op): Outcome {
    if !Valid(op.resource) then SchemaError
    else if op.Upsert? || op.Delete? then Done
    else if Strip(op.variable, WHITESPACE) == "" then SchemaError
    else if At(op.resource) !in docs then NotFound
    else Done
  }

  /** The entries after one variable is set or removed. */
  function Mutated(entries: seq<Entry>, op: Op): seq<Entry>
    requires op.SetVariable? || op.RemoveVariable?
  {
    var name := Strip(op.variable, WHITESPACE);
    Without(entries, name) + if op.SetVariable? then [Entry(name, op.value)] else []
  }

  /** A plain upsert carries the committed variables over. */
  function CarriedOver(docs: Docs, at: (string, string), spec: Spec): Spec {
    if spec.variables.None? && at in docs && VariablesOf(docs[at]) != []
    then spec.(variables := Some(VariablesOf(docs[at]))) else spec
  }

  function WithVariables(m: Manifest, entries: seq<Entry>): Manifest {
    m.(spec := m.spec.(variables := if entries == [] then None else Some(entries)))
  }

  function Apply(docs: Docs, op: Op): Docs {
    if OutcomeOf(docs, op) != Done then docs
    else
      var r, at := op.resource, At(op.resource);
      match op
      case Upsert(_, spec) => docs[at := Manifest(KINDS[r.plural], r.client, r.name, CarriedOver(docs, at, spec))]
      case Delete(_) => docs - {at}
      case _ => docs[at := WithVariables(docs[at], Mutated(VariablesOf(docs[at]), op))]
  }

  function ApplyAll(docs: Docs, ops: seq<Op>): Docs
    decreases |ops|
  {
    if |ops| == 0 then docs else ApplyAll(Apply(docs, ops[0]), ops[1..])
  }

  /** What listing a resource's variables returns. */
  function Listing(docs: Docs, r: Resource): Option<seq<Entry>> {
    if At(r) in docs then Some(VariablesOf(docs[At(r)])) else None
  }

  // ---- the table they refine ----

  type Table = map<Resource, map<string, string>>

  function MapOf(entries: seq<Entry>): map<string, string> {
    if entries == [] then map[]
    else MapOf(entries[..|entries| - 1])[entries[|entries| - 1].name := entries[|entries| - 1].value]
  }

  function TableStep(t: Table, op: Op): Table {
    var r := op.resource;
    if !Valid(r) then t
    else match op
      case Upsert(_, spec) =>
        if spec.variables.Some? then t[r := MapOf(spec.variables.value)] else if r in t then t else t[r := map[]]
      case Delete(_) => t - {r}
      case SetVariable(_, v, value) =>
        if Strip(v, WHITESPACE) == "" || r !in t then t else t[r := t[r][Strip(v, WHITESPACE) := value]]
      case RemoveVariable(_, v) =>
        if Strip(v, WHITESPACE) == "" || r !in t then t else t[r := t[r] - {Strip(v, WHITESPACE)}]
  }

  function TableRun(t: Table, ops: seq<Op>): Table
    decreases |ops|
  {
    if |ops| == 0 then t else TableRun(TableStep(t, ops[0]), ops[1..])
  }

  /** A resource is listed exactly when the table has it, with distinct names and the table's values. */
  ghost predicate RefinesAt(docs: Docs, t: Table, r: Resource) {
    && (At(r) in docs <==> r in t)
    && (r in t ==> Distinct(VariablesOf(docs[At(r)])) && MapOf(VariablesOf(docs[At(r)])) == t[r])
  }

  ghost predicate Refines(docs: Docs, t: Table) {
    forall r :: Valid(r) ==> RefinesAt(docs, t, r)
  }

  /** An upsert that brings its own variables brings each name once. */
  predicate WellFormed(op: Op) {
    op.Upsert? && op.spec.variables.Some? ==> Distinct(op.spec.variables.value)
  }

  // ---- no operation touches another resource's file ----

  lemma PluralIsSlashFree(plural: string)
    requires plural in KINDS
    ensures SlashFree(plural)
  {
  }

  lemma PathsInjective(a: Resource, b: Resource)
    requires Valid(a) && Valid(b) && At(a) == At(b)
    ensures a == b
  {
    hide Names.ValidLabel;
    PluralIsSlashFree(a.plural);
    PluralIsSlashFree(b.plural);
    var x, y := "/" + (a.name + ".yaml"), "/" + (b.name + ".yaml");
    assert RepoPath(a.plural, a.name) == a.plural + x && RepoPath(b.plural, b.name) == b.plural + y;
    SlashSplit(a.plural, x, b.plural, y);
    assert x[1..|a.name| + 1] == a.name && y[1..|b.name| + 1] == b.name;
  }

  /** Whatever the operation and its outcome, every other resource's file is as it was. */
  lemma OthersUntouched(docs: Docs, op: Op, other: Resource)
    requires Valid(other) && other != op.resource
    ensures At(other) in Apply(docs, op) <==> At(other) in docs
    ensures At(other) in docs ==> Apply(docs, op)[At(other)] == docs[At(other)]
  {
    hide Names.ValidLabel, RepoPath, CarriedOver, WithVariables, Mutated;
    if Valid(op.resource) && At(other) == At(op.resource) { PathsInjective(other, op.resource); }
  }

  // ---- entries and maps ----

  lemma {:induction false} MapHas(entries: seq<Entry>, name: string)
    ensures name in MapOf(entries) <==> exists i :: 0 <= i < |entries| && entries[i].name == name
  {
    if entries != [] { MapHas(entries[..|entries| - 1], name); }
  }

  lemma MapOfSnoc(entries: seq<Entry>, e: Entry)
    ensures MapOf(entries + [e]) == MapOf(entries)[e.name := e.value]
  {
    assert (entries + [e])[..|entries + [e]| - 1] == entries;
  }

  lemma UpdatedWithout(m: map<string, string>, e: Entry, name: string)
    ensures m[e.name := e.value] - {name} == if e.name != name then (m - {name})[e.name := e.value] else m - {name}
  {
  }

  lemma {:induction false} MapOfWithout(entries: seq<Entry>, name: string)
    ensures MapOf(Without(entries, name)) == MapOf(entries) - {name}
    decreases |entries|
  {
    if entries != [] {
      var front, e := entries[..|entries| - 1], entries[|entries| - 1];
      MapOfWithout(front, name);
      UpdatedWithout(MapOf(front), e, name);
      if e.name != name {
        MapOfSnoc(Without(front, name), e);
      } else {
        assert Without(front, name) + [] == Without(front, name);
      }
    }
  }

  lemma {:induction false} WithoutDistinct(entries: seq<Entry>, name: string)
    requires Distinct(entries)
    ensures Distinct(Without(entries, name))
  {
    if entries != [] {
      var front, e := entries[..|entries| - 1], entries[|entries| - 1];
      var rest := Without(front, name);
      WithoutDistinct(front, name);
      if e.name != name {
        forall x | x in rest ensures x.name != e.name {
          assert x in front;
        }
        AppendedDistinct(rest, e);
      } else {
        assert rest + [] == rest;
      }
    }
  }

  lemma MutatedIsMap(entries: seq<Entry>, op: Op)
    requires (op.SetVariable? || op.RemoveVariable?) && Distinct(entries)
    ensures var name := Strip(op.variable, WHITESPACE);
            && Distinct(Mutated(entries, op))
            && MapOf(Mutated(entries, op))
               == if op.SetVariable? then MapOf(entries)[name := op.value] else MapOf(entries) - {name}
  {
    hide Distinct, MapOf, Without;
    var name := Strip(op.variable, WHITESPACE);
    var kept := Without(entries, name);
    MapOfWithout(entries, name);
    WithoutDistinct(entries, name);
    if op.SetVariable? {
      MapOfSnoc(kept, Entry(name, op.value));
      UpdatedAgain(MapOf(entries), name, op.value);
      AppendedDistinct(kept, Entry(name, op.value));
    } else {
      assert kept + [] == kept;
    }
  }

  lemma UpdatedAgain(m: map<string, string>, name: string, value: string)
    ensures (m - {name})[name := value] == m[name := value]
  {
  }

  lemma AppendedDistinct(entries: seq<Entry>, e: Entry)
    requires Distinct(entries) && forall x :: x in entries ==> x.name != e.name
    ensures Distinct(entries + [e])
  {
  }

  // ---- the refinement ----

  lemma ApplyRefinesAt(docs: Docs, t: Table, op: Op, r: Resource)
    requires WellFormed(op) && RefinesAt(docs, t, r) && Valid(r)
    ensures RefinesAt(Apply(docs, op), TableStep(t, op), r)
  {
    hide RepoPath, Names.ValidLabel, Mutated, Distinct, MapOf;
    if op.resource != r {
      OthersUntouched(docs, op, r);
    } else if OutcomeOf(docs, op) == Done && (op.SetVariable? || op.RemoveVariable?) {
      MutatedIsMap(VariablesOf(docs[At(r)]), op);
    } else {
      EmptyIsDistinct();
    }
  }

  lemma EmptyIsDistinct()
    ensures Distinct([]) && MapOf([]) == map[]
  {
  }

  /** Over every sequential run of upserts, sets, removes and deletes on any clients and resources: a resource can be
      listed exactly when the table of per-resource maps has it, its list has pairwise distinct names, and as a map it is
      the table's; an upsert that says nothing of variables changes no map, and a delete forgets one. */
  lemma {:induction false} GitRefinesTable(docs: Docs, t: Table, ops: seq<Op>)
    requires Refines(docs, t) && forall op :: op in ops ==> WellFormed(op)
    ensures Refines(ApplyAll(docs, ops), TableRun(t, ops))
    decreases |ops|
  {
    if |ops| > 0 {
      forall r | Valid(r) ensures RefinesAt(Apply(docs, ops[0]), TableStep(t, ops[0]), r) {
        ApplyRefinesAt(docs, t, ops[0], r);
      }
      GitRefinesTable(Apply(docs, ops[0]), TableStep(t, ops[0]), ops[1..]);
    }
  }

  // ---- everything but the variables ----

  /** The settings of each resource, as its last upsert brought them. */
  type Settings = map<Resource, string>

  function SettingsStep(t: Settings, op: Op): Settings {
    if !Valid(op.resource) then t
    else match op
      case Upsert(r, spec) => t[r := spec.settings]
      case Delete(r) => t - {r}
      case _ => t
  }

  function SettingsRun(t: Settings, ops: seq<Op>): Settings
    decreases |ops|
  {
    if |ops| == 0 then t else SettingsRun(SettingsStep(t, ops[0]), ops[1..])
  }

  /** The resource is committed exactly when the table has it, under its own kind, client and name, with these settings. */
  predicate SettledAt(docs: Docs, t: Settings, r: Resource)
    requires Valid(r)
  {
    && (At(r) in docs <==> r in t)
    && (r in t ==> docs[At(r)].(spec := docs[At(r)].spec.(variables := None))
                   == Manifest(KINDS[r.plural], r.client, r.name, Spec(t[r], None)))
  }

  lemma ApplySettlesAt(docs: Docs, t: Settings, op: Op, r: Resource)
    requires Valid(r) && SettledAt(docs, t, r)
    ensures SettledAt(Apply(docs, op), SettingsStep(t, op), r)
  {
    hide RepoPath, Names.ValidLabel, Mutated;
    if op.resource != r { OthersUntouched(docs, op, r); }
  }

  /** Over every run a resource's settings are those of its last upsert, and kind, client and name are its own: setting and
      removing variables leaves them alone, and a delete forgets them. */
  lemma {:induction false} GitKeepsSettings(docs: Docs, t: Settings, ops: seq<Op>)
    requires forall r :: Valid(r) ==> SettledAt(docs, t, r)
    ensures forall r :: Valid(r) ==> SettledAt(ApplyAll(docs, ops), SettingsRun(t, ops), r)
    decreases |ops|
  {
    hide SettledAt, Apply, SettingsStep, Valid;
    if |ops| > 0 {
      forall r | Valid(r) ensures SettledAt(Apply(docs, ops[0]), SettingsStep(t, ops[0]), r) {
        ApplySettlesAt(docs, t, ops[0], r);
      }
      GitKeepsSettings(Apply(docs, ops[0]), SettingsStep(t, ops[0]), ops[1..]);
    }
  }

  /** What a request answers, told from the table: it is refused for a bad name before it is looked up, only variables are
      looked up, and an answer other than `Done` changes nothing. */
  lemma OutcomeFollowsTable(docs: Docs, t: Table, op: Op)
    requires Valid(op.resource) ==> RefinesAt(docs, t, op.resource)
    ensures var named := (op.SetVariable? || op.RemoveVariable?) ==> Strip(op.variable, WHITESPACE) != "";
            && (OutcomeOf(docs, op) == SchemaError <==> !Valid(op.resource) || !named)
            && (OutcomeOf(docs, op) == NotFound <==>
                  Valid(op.resource) && named && (op.SetVariable? || op.RemoveVariable?) && op.resource !in t)
            && (OutcomeOf(docs, op) != Done ==> Apply(docs, op) == docs && TableStep(t, op) == t)
  {
    hide Strip, Mutated, Names.ValidLabel, RepoPath;
  }

  // ---- the shape of a manifest ----

  /** The manifest has no empty list of variables: it then has no such key. */
  predicate NoEmptyList(m: Manifest) {
    m.spec.variables != Some([])
  }

  predicate BringsNoEmptyList(op: Op) {
    op.Upsert? ==> op.spec.variables != Some([])
  }

  lemma ApplyDropsEmpty(docs: Docs, op: Op)
    requires BringsNoEmptyList(op) && forall at :: at in docs ==> NoEmptyList(docs[at])
    ensures forall at :: at in Apply(docs, op) ==> NoEmptyList(Apply(docs, op)[at])
  {
    hide RepoPath, Names.ValidLabel, Mutated, Strip;
  }

  /** Over every run no manifest is committed with an empty list, unless an upsert brings one: removing the last variable
      removes the key. */
  lemma {:induction false} LastRemovalDropsKey(docs: Docs, ops: seq<Op>)
    requires (forall op :: op in ops ==> BringsNoEmptyList(op)) && forall at :: at in docs ==> NoEmptyList(docs[at])
    ensures forall at :: at in ApplyAll(docs, ops) ==> NoEmptyList(ApplyAll(docs, ops)[at])
    decreases |ops|
  {
    hide Apply, NoEmptyList, BringsNoEmptyList;
    if |ops| > 0 {
      assert ops[0] in ops;
      ApplyDropsEmpty(docs, ops[0]);
      LastRemovalDropsKey(Apply(docs, ops[0]), ops[1..]);
    }
  }

  function LowerCase(s: string): (r: string)
    ensures |r| == |s|
  {
    seq(|s|, i requires 0 <= i < |s| => if 'A' <= s[i] <= 'Z' then 'a' + (s[i] - 'A') else s[i])
  }

  function PluralOf(word: string): string {
    if word != "" && word[|word| - 1] == 'y' then word[..|word| - 1] + "ies" else word + "s"
  }

  lemma ShortPlurals()
    ensures PluralOf(LowerCase("Client")) == "clients"
    ensures PluralOf(LowerCase("Domain")) == "domains"
  {
  }

  lemma DatabasePlural()
    ensures PluralOf(LowerCase("Database")) == "databases"
    ensures PluralOf(LowerCase("Snapshot")) == "snapshots"
  {
  }

  lemma ServerPlural()
    ensures PluralOf(LowerCase("DatabaseServer")) == "databaseservers"
  {
  }

  lemma EnvironmentPlural()
    ensures PluralOf(LowerCase("Environment")) == "environments"
  {
  }

  lemma ApplicationPlural()
    ensures PluralOf(LowerCase("Application")) == "applications"
  {
  }

  lemma LastPlural() ensures PluralOf(LowerCase("GitRepository")) == "gitrepositories" {
    assert LowerCase("GitRepository") == "gitrepository";
  }

  /** The directory of a kind is its name in the plural. */
  lemma PluralsOfKinds(plural: string)
    requires plural in KINDS
    ensures plural == PluralOf(LowerCase(KINDS[plural]))
  {
    ShortPlurals();
    DatabasePlural();
    ServerPlural();
    EnvironmentPlural();
    ApplicationPlural();
    LastPlural();
    hide PluralOf, LowerCase;
  }

  /** The variable set last on a resource is the last of its list, after the others in their order, whatever is done to
      other resources meanwhile. */
  lemma LastSetIsLast(docs: Docs, r: Resource, variable: string, value: string, later: seq<Op>)
    requires Valid(r) && Strip(variable, WHITESPACE) != "" && At(r) in docs
    requires forall op :: op in later ==> op.resource != r
    ensures var name := Strip(variable, WHITESPACE);
            Listing(ApplyAll(Apply(docs, SetVariable(r, variable, value)), later), r)
            == Some(Without(VariablesOf(docs[At(r)]), name) + [Entry(name, value)])
  {
    hide RepoPath, Names.ValidLabel, Without;
    OthersLeaveListing(Apply(docs, SetVariable(r, variable, value)), r, later);
  }

  lemma {:induction false} OthersLeaveListing(docs: Docs, r: Resource, ops: seq<Op>)
    requires Valid(r) && forall op :: op in ops ==> op.resource != r
    ensures Listing(ApplyAll(docs, ops), r) == Listing(docs, r)
    decreases |ops|
  {
    hide RepoPath, Names.ValidLabel, Apply;
    if |ops| > 0 {
      OthersUntouched(docs, ops[0], r);
      OthersLeaveListing(Apply(docs, ops[0]), r, ops[1..]);
    }
  }

  // ---- which manifest a scope's variables are in ----

  /** The API's choice of manifest for a scope of a client. */
  function ScopeResource(client: string, environment: string, application: string): Resource {
    if application != "" then Resource(client, "applications", application)
    else if environment != "" then Resource(client, "environments", environment)
    else Resource(client, "clients", client)
  }

  /** Two application scopes of one client share their variables exactly when the applications have one name, whatever
      their environments. */
  lemma ScopesShareIff(client: string, e1: string, a1: string, e2: string, a2: string)
    requires a1 != "" && a2 != ""
    ensures At(ScopeResource(client, e1, a1)) == At(ScopeResource(client, e2, a2)) <==> a1 == a2
  {
    if At(ScopeResource(client, e1, a1)) == At(ScopeResource(client, e2, a2)) {
      var p, q := RepoPath("applications", a1), RepoPath("applications", a2);
      assert |a1| == |a2|;
      assert p[13..13 + |a1|] == a1 && q[13..13 + |a2|] == a2;
    }
  }

  // ---- the writer and the service ----

  /** A stored file; the contents API asks for its sha when it is changed. */
  datatype File = File(sha: nat, manifest: Manifest)

  /** The Forgejo backend in commit mode. */
  class ForgejoWriter {
    var files: map<(string, string), File>
    var commits: nat

    function View(): Docs
      reads this
    {
      map at | at in files :: files[at].manifest
    }

    constructor ()
      ensures View() == map[]
    {
      files, commits := map[], 0;
    }

    /** The server creates a file only when it is absent, and updates one only when given its sha. */
    method PutFile(at: (string, string), manifest: Manifest, sha: Option<nat>) returns (accepted: bool)
      modifies this
      ensures accepted <==> if sha.None? then at !in old(files) else at in old(files) && old(files)[at].sha == sha.value
      ensures View() == if accepted then old(View())[at := manifest] else old(View())
    {
      accepted := if sha.None? then at !in files else at in files && files[at].sha == sha.value;
      if accepted {
        files, commits := files[at := File(commits, manifest)], commits + 1;
      }
    }

    method DeleteFile(at: (string, string), sha: nat) returns (accepted: bool)
      modifies this
      ensures accepted <==> at in old(files) && old(files)[at].sha == sha
      ensures View() == if accepted then old(View()) - {at} else old(View())
    {
      accepted := at in files && files[at].sha == sha;
      if accepted {
        files, commits := files - {at}, commits + 1;
      }
    }

    method FileSha(at: (string, string)) returns (sha: Option<nat>)
      ensures sha == if at in files then Some(files[at].sha) else None
    {
      sha := if at in files then Some(files[at].sha) else None;
    }

    method ReadManifest(at: (string, string)) returns (manifest: Option<Manifest>)
      ensures manifest == if at in View() then Some(View()[at]) else None
    {
      manifest := if at in files then Some(files[at].manifest) else None;
    }

    /** Reads the sha, then creates or updates; no other writer comes in between, so the server accepts. */
    method ApplyManifest(at: (string, string), manifest: Manifest) returns (committed: bool)
      modifies this
      ensures committed && View() == old(View())[at := manifest]
    {
      var sha := FileSha(at);
      committed := PutFile(at, manifest, sha);
    }

    method DeleteManifest(at: (string, string)) returns (deleted: bool)
      modifies this
      ensures deleted <==> at in old(View())
      ensures View() == old(View()) - {at}
    {
      var sha := FileSha(at);
      if sha.None? {
        assert old(View()) - {at} == old(View());
        return false;
      }
      deleted := DeleteFile(at, sha.value);
    }
  }

  class ClientService {
    const writer: ForgejoWriter

    constructor (writer: ForgejoWriter)
      ensures this.writer == writer
    {
      this.writer := writer;
    }

    method Commit(r: Resource, spec: Spec) returns (o: Outcome)
      modifies writer
      ensures o == OutcomeOf(old(writer.View()), Upsert(r, spec))
      ensures writer.View() == Apply(old(writer.View()), Upsert(r, spec))
    {
      hide Names.ValidLabel, RepoPath;
      if !Valid(r) { return SchemaError; }
      var manifest := Manifest(KINDS[r.plural], r.client, r.name, spec);
      if manifest.spec.variables.None? {
        var current := writer.ReadManifest(At(r));
        if current.Some? {
          var variables := VariablesOf(current.value);
          if variables != [] {
            manifest := manifest.(spec := manifest.spec.(variables := Some(variables)));
          }
        }
      }
      var committed := writer.ApplyManifest(At(r), manifest);
      o := Done;
    }

    /** Sets (`value`) or removes (`None`) one variable of a committed manifest. */
    method MutateVariables(r: Resource, variable: string, value: Option<string>) returns (o: Outcome)
      modifies writer
      ensures var op := if value.Some? then SetVariable(r, variable, value.value) else RemoveVariable(r, variable);
              o == OutcomeOf(old(writer.View()), op) && writer.View() == Apply(old(writer.View()), op)
    {
      hide Names.ValidLabel, RepoPath;
      if !Valid(r) { return SchemaError; }
      var name := Strip(variable, WHITESPACE);
      if name == "" { return SchemaError; }
      var current := writer.ReadManifest(At(r));
      if current.None? { return NotFound; }
      var manifest := current.value;
      var entries := Without(VariablesOf(manifest), name);
      if value.Some? {
        entries := entries + [Entry(name, value.value)];
      } else {
        assert entries + [] == entries;
      }
      manifest := WithVariables(manifest, entries);
      var committed := writer.ApplyManifest(At(r), manifest);
      o := Done;
    }

    method Variables(r: Resource) returns (o: Outcome, entries: seq<Entry>)
      ensures o == if !Valid(r) then SchemaError else if Listing(writer.View(), r).None? then NotFound else Done
      ensures o == Done ==> Listing(writer.View(), r) == Some(entries)
    {
      hide Names.ValidLabel, RepoPath;
      entries := [];
      if !Valid(r) { return SchemaError, []; }
      var current := writer.ReadManifest(At(r));
      if current.None? { return NotFound, []; }
      o, entries := Done, VariablesOf(current.value);
    }

    method Remove(r: Resource) returns (o: Outcome)
      modifies writer
      ensures o == OutcomeOf(old(writer.View()), Delete(r)) && writer.View() == Apply(old(writer.View()), Delete(r))
    {
      hide Names.ValidLabel, RepoPath;
      if !Valid(r) { return SchemaError; }
      var deleted := writer.DeleteManifest(At(r));
      o := Done;
    }
  }
}
