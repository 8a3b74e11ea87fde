/** The pipeline manifest and the files in the pipeline repository: committing, importing and committing again. */
module PipelineManifest {
  import opened Text
  import Dockerfile

  // ---- the manifest's document tree ----

  /** A YAML document. Scalars that are not text are kept by the text that `str` gives them. */
  datatype Node =
    | Null
    | Scalar(text: string)
    | Items(items: seq<Node>)
    | Fields(fields: map<string, Node>)

  /** YAML as a codec: what is dumped after the comment header loads as it was. */
  datatype Yaml = Yaml(dump: Node -> string, load: string -> Node)

  const HEADER: string :=
    "# Managed by the Adomi platform (the application's Pipeline tab).\n"
    + "# You can edit this file by hand \U{2014} the portal imports your changes \U{2014} but the\n"
    + "# Dockerfile is regenerated from it, so edit THIS file, not the Dockerfile.\n"

  ghost predicate Lossless(y: Yaml) {
    forall n :: y.load(HEADER + y.dump(n)) == n
  }

  function Texts(items: seq<string>): (r: seq<Node>)
    ensures |r| == |items| && forall i :: 0 <= i < |r| ==> r[i] == Scalar(items[i])
  {
    seq(|items|, i requires 0 <= i < |items| => Scalar(items[i]))
  }

  function SourceNode(s: Dockerfile.Source): Node {
    Fields(map["repo" := Scalar(s.repo), "branch" := Scalar(s.branch), "modules" := Items(Texts(s.modules))])
  }

  function SourceNodes(sources: seq<Dockerfile.Source>): (r: seq<Node>)
    ensures |r| == |sources| && forall i :: 0 <= i < |r| ==> r[i] == SourceNode(sources[i])
  {
    seq(|sources|, i requires 0 <= i < |sources| => SourceNode(sources[i]))
  }

  function ManifestNode(p: Dockerfile.Pipeline): Node {
    Fields(map["odooBaseImage" := Scalar(Dockerfile.OrElse(p.baseImage, Dockerfile.DEFAULT_BASE_IMAGE)),
               "apt" := Items(Texts(p.apt)), "pip" := Items(Texts(p.pip)), "addons" := Items(SourceNodes(p.sources))])
  }

  /** `render_manifest` */
  function RenderManifest(y: Yaml, p: Dockerfile.Pipeline): string {
    HEADER + y.dump(ManifestNode(p))
  }

  // ---- reading a manifest, tolerating missing keys ----

  function Get(n: Node, key: string): Node {
    if n.Fields? && key in n.fields then n.fields[key] else Null
  }

  /** `str(n.get(key) or "")` */
  function TextAt(n: Node, key: string): string {
    var v := Get(n, key);
    if v.Scalar? then v.text else ""
  }

  /** `n.get(key) or []` */
  function ItemsAt(n: Node, key: string): seq<Node> {
    var v := Get(n, key);
    if v.Items? then v.items else []
  }

  /** `str` of a list entry; only text and other scalars are used as entries. */
  function Str(n: Node): string {
    if n.Scalar? then n.text else if n.Null? then "None" else ""
  }

  function Strs(items: seq<Node>): (r: seq<string>)
    ensures |r| == |items| && forall i :: 0 <= i < |r| ==> r[i] == Str(items[i])
  {
    seq(|items|, i requires 0 <= i < |items| => Str(items[i]))
  }

  function ParseSource(n: Node): Dockerfile.Source {
    Dockerfile.Source(TextAt(n, "repo"), TextAt(n, "branch"), Strs(ItemsAt(n, "modules")))
  }

  /** Sources without a repository are skipped. */
  function ParseSources(items: seq<Node>): seq<Dockerfile.Source> {
    if items == [] then []
    else
      var n := items[|items| - 1];
      ParseSources(items[..|items| - 1]) + if TextAt(n, "repo") != "" then [ParseSource(n)] else []
  }

  /** `parse_manifest` */
  function ParseManifest(y: Yaml, text: string): Dockerfile.Pipeline {
    var doc := y.load(text);
    Dockerfile.Pipeline(TextAt(doc, "odooBaseImage"), Strs(ItemsAt(doc, "apt")), Strs(ItemsAt(doc, "pip")),
                        ParseSources(ItemsAt(doc, "addons")))
  }

  // ---- parsing what was rendered ----

  function WithRepo(sources: seq<Dockerfile.Source>): seq<Dockerfile.Source> {
    if sources == [] then []
    else
      var s := sources[|sources| - 1];
      WithRepo(sources[..|sources| - 1]) + if s.repo != "" then [s] else []
  }

  /** The pipeline with its defaults filled in and its nameless sources dropped. */
  function Normalized(p: Dockerfile.Pipeline): Dockerfile.Pipeline {
    p.(baseImage := Dockerfile.OrElse(p.baseImage, Dockerfile.DEFAULT_BASE_IMAGE), sources := WithRepo(p.sources))
  }

  lemma {:induction false} SourcesComeBack(sources: seq<Dockerfile.Source>)
    ensures ParseSources(SourceNodes(sources)) == WithRepo(sources)
  {
    if sources != [] {
      var n := |sources| - 1;
      SourcesComeBack(sources[..n]);
      assert SourceNodes(sources)[..n] == SourceNodes(sources[..n]);
      SourceComesBack(sources[n]);
    }
  }

  lemma SourceComesBack(s: Dockerfile.Source)
    ensures ParseSource(SourceNode(s)) == s && TextAt(SourceNode(s), "repo") == s.repo
  {
    assert Strs(Texts(s.modules)) == s.modules;
  }

  /** Parsing a rendered manifest gives the normalized pipeline, for every list of sources and packages. */
  lemma ParseRendered(y: Yaml, p: Dockerfile.Pipeline)
    requires Lossless(y)
    ensures ParseManifest(y, RenderManifest(y, p)) == Normalized(p)
  {
    assert Strs(Texts(p.apt)) == p.apt && Strs(Texts(p.pip)) == p.pip;
    SourcesComeBack(p.sources);
  }

  /** A mapping of the manifest's keys, as the platform writes it or a hand edits it, to these values; other keys may stand
      beside them. */
  predicate Keyed(n: Node, base: string, apt: seq<string>, pip: seq<string>, addons: seq<Node>) {
    && n.Fields? && {"odooBaseImage", "apt", "pip", "addons"} <= n.fields.Keys
    && n.fields["odooBaseImage"] == Scalar(base) && n.fields["apt"] == Items(Texts(apt)) && n.fields["pip"] == Items(Texts(pip))
    && n.fields["addons"] == Items(addons)
  }

  predicate KeyedSource(n: Node, s: Dockerfile.Source) {
    && n.Fields? && {"repo", "branch", "modules"} <= n.fields.Keys
    && n.fields["repo"] == Scalar(s.repo) && n.fields["branch"] == Scalar(s.branch) && n.fields["modules"] == Items(Texts(s.modules))
  }

  lemma {:induction false} KeyedSourcesRead(addons: seq<Node>, sources: seq<Dockerfile.Source>)
    requires |addons| == |sources| && forall i :: 0 <= i < |sources| ==> KeyedSource(addons[i], sources[i])
    ensures ParseSources(addons) == WithRepo(sources)
  {
    if sources != [] {
      var n := |sources| - 1;
      KeyedSourcesRead(addons[..n], sources[..n]);
      assert KeyedSource(addons[n], sources[n]);
      assert Strs(Texts(sources[n].modules)) == sources[n].modules;
    }
  }

  /** A manifest with these keys is read as this pipeline, whoever wrote it. */
  lemma KeysAreRead(y: Yaml, text: string, p: Dockerfile.Pipeline, addons: seq<Node>)
    requires Keyed(y.load(text), p.baseImage, p.apt, p.pip, addons) && |addons| == |p.sources|
    requires forall i :: 0 <= i < |p.sources| ==> KeyedSource(addons[i], p.sources[i])
    ensures ParseManifest(y, text) == p.(sources := WithRepo(p.sources))
  {
    KeyedSourcesRead(addons, p.sources);
    assert Strs(Texts(p.apt)) == p.apt && Strs(Texts(p.pip)) == p.pip;
  }

  /** The platform writes these keys. */
  lemma KeysAreWritten(y: Yaml, p: Dockerfile.Pipeline)
    requires Lossless(y)
    ensures Keyed(y.load(RenderManifest(y, p)), if p.baseImage == "" then "ghcr.io/adomi-io/odoo:19.0" else p.baseImage, p.apt, p.pip,
                  SourceNodes(p.sources))
    ensures forall i :: 0 <= i < |p.sources| ==> KeyedSource(SourceNodes(p.sources)[i], p.sources[i])
  {
    assert y.load(HEADER + y.dump(ManifestNode(p))) == ManifestNode(p);
  }

  lemma {:induction false} WithRepoIff(sources: seq<Dockerfile.Source>)
    ensures |WithRepo(sources)| <= |sources|
    ensures |WithRepo(sources)| == |sources| <==> forall i :: 0 <= i < |sources| ==> sources[i].repo != ""
    ensures |WithRepo(sources)| == |sources| ==> WithRepo(sources) == sources
  {
    if sources != [] { WithRepoIff(sources[..|sources| - 1]); }
  }

  // ---- the text fields of the portal ----

  /** The characters at which `str.splitlines` breaks. */
  predicate IsBreak(c: char) {
    '\n' <= c <= '\r' || '\U{1C}' <= c <= '\U{1E}' || c == '\U{85}' || c == '\U{2028}' || c == '\U{2029}'
  }

  /** The text up to the first break, and what comes after that break. */
  function FirstLine(s: string): (r: (string, string))
    ensures |r.1| <= |s| && (s != "" ==> |r.1| < |s|)
  {
    if s == "" then ("", "")
    else if IsBreak(s[0]) then ("", s[1..])
    else var (line, rest) := FirstLine(s[1..]); ([s[0]] + line, rest)
  }

  /** `_lines`: each line stripped, blank ones dropped. */
  function Lines(s: string): seq<string>
    decreases |s|
  {
    if |s| == 0 then []
    else
      var (line, rest) := FirstLine(s);
      (if Strip(line, WHITESPACE) != "" then [Strip(line, WHITESPACE)] else []) + Lines(rest)
  }

  /** What `_lines` yields: entries without blanks at their ends and without breaks. */
  predicate Entry(e: string) {
    e != "" && Strip(e, WHITESPACE) == e && forall i :: 0 <= i < |e| ==> !IsBreak(e[i])
  }

  predicate Entries(lines: seq<string>) {
    forall i :: 0 <= i < |lines| ==> Entry(lines[i])
  }

  lemma {:induction false} FirstLineHasNoBreak(s: string)
    ensures forall i :: 0 <= i < |FirstLine(s).0| ==> !IsBreak(FirstLine(s).0[i])
  {
    if s != "" && !IsBreak(s[0]) { FirstLineHasNoBreak(s[1..]); }
  }

  lemma StripTwice(s: string)
    ensures Strip(Strip(s, WHITESPACE), WHITESPACE) == Strip(s, WHITESPACE)
  {
    hide RStrip, LStrip;
    var t := Strip(s, WHITESPACE);
    if t == "" { assert Strip("", WHITESPACE) == ""; }
  }

  lemma {:induction false} LinesAreEntries(s: string)
    ensures Entries(Lines(s))
    decreases |s|
  {
    hide Strip;
    if |s| > 0 {
      var (line, rest) := FirstLine(s);
      LinesAreEntries(rest);
      FirstLineHasNoBreak(s);
      StripTwice(line);
      StripKeepsAll(line, WHITESPACE, (c: char) => !IsBreak(c));
    }
  }

  lemma {:induction false} FirstLineOf(e: string, rest: string)
    requires forall i :: 0 <= i < |e| ==> !IsBreak(e[i])
    ensures FirstLine(e + "\n" + rest) == (e, rest) && (e != "" ==> FirstLine(e) == (e, ""))
  {
    if e == "" {
      assert (e + "\n" + rest)[1..] == rest;
    } else {
      assert (e + "\n" + rest)[1..] == e[1..] + "\n" + rest;
      FirstLineOf(e[1..], rest);
      assert e == [e[0]] + e[1..];
    }
  }

  /** Joining entries and taking the lines again gives the entries. */
  lemma {:induction false} LinesOfJoined(lines: seq<string>)
    requires Entries(lines)
    ensures Lines(Join(lines)) == lines
    decreases |lines|
  {
    hide Strip;
    if lines != [] {
      var e := lines[0];
      assert Entry(e);
      if |lines| == 1 {
        FirstLineOf(e, "");
        assert Lines("") == [];
      } else {
        LinesOfJoined(lines[1..]);
        FirstLineOf(e, Join(lines[1..]));
        assert lines == [e] + lines[1..];
      }
    }
  }

  // ---- the record and the repository ----

  const MANIFEST_PATH: string := "adomi-pipeline.yaml"
  const DOCKERFILE_PATH: string := "Dockerfile"

  /** An addon source record: its modules are a text field, one per line. */
  datatype SourceRecord = SourceRecord(repo: string, branch: string, modules: string)

  /** The pipeline fields of an application record; the sources come in the order of their sequence numbers. */
  datatype Tab = Tab(baseImage: string, apt: string, pip: string, sources: seq<SourceRecord>)

  function EntryOf(s: SourceRecord): Dockerfile.Source {
    Dockerfile.Source(s.repo, s.branch, Lines(s.modules))
  }

  function EntriesOf(sources: seq<SourceRecord>): (r: seq<Dockerfile.Source>)
    ensures |r| == |sources| && forall i :: 0 <= i < |r| ==> r[i] == EntryOf(sources[i])
  {
    seq(|sources|, i requires 0 <= i < |sources| => EntryOf(sources[i]))
  }

  /** `_odoo_pipeline_data` */
  function Data(t: Tab): Dockerfile.Pipeline {
    Dockerfile.Pipeline(t.baseImage, Lines(t.apt), Lines(t.pip), EntriesOf(t.sources))
  }

  function RecordsOf(sources: seq<Dockerfile.Source>): (r: seq<SourceRecord>)
    ensures |r| == |sources|
    ensures forall i :: 0 <= i < |r| ==> r[i] == SourceRecord(sources[i].repo, sources[i].branch, Join(sources[i].modules))
  {
    seq(|sources|, i requires 0 <= i < |sources| =>
      SourceRecord(sources[i].repo, sources[i].branch, Join(sources[i].modules)))
  }

  /** The fields that an import writes. */
  function Imported(p: Dockerfile.Pipeline): Tab {
    Tab(p.baseImage, Join(p.apt), Join(p.pip), RecordsOf(p.sources))
  }

  function DockerText(l: Dockerfile.Letters, p: Dockerfile.Pipeline): string {
    Join([Dockerfile.HEADER] + Dockerfile.Body(l, p))
  }

  /** The repository after a commit of the pipeline. */
  function Committed(files: map<string, string>, y: Yaml, l: Dockerfile.Letters, p: Dockerfile.Pipeline): map<string, string> {
    files[MANIFEST_PATH := RenderManifest(y, p)][DOCKERFILE_PATH := DockerText(l, p)]
  }

  predicate Differs(files: map<string, string>, path: string, text: string) {
    !(path in files && files[path] == text)
  }

  /** How many files a commit writes. */
  function Writes(files: map<string, string>, y: Yaml, l: Dockerfile.Letters, p: Dockerfile.Pipeline): nat {
    (if Differs(files, MANIFEST_PATH, RenderManifest(y, p)) then 1 else 0)
    + if Differs(files, DOCKERFILE_PATH, DockerText(l, p)) then 1 else 0
  }

  /** An imported pipeline whose lists hold entries is read back from the fields as it was. */
  lemma DataOfImported(p: Dockerfile.Pipeline)
    requires Entries(p.apt) && Entries(p.pip) && forall i :: 0 <= i < |p.sources| ==> Entries(p.sources[i].modules)
    ensures Data(Imported(p)) == p
  {
    hide Lines, Join, Entries;
    LinesOfJoined(p.apt);
    LinesOfJoined(p.pip);
    forall i | 0 <= i < |p.sources| ensures EntryOf(RecordsOf(p.sources)[i]) == p.sources[i] {
      LinesOfJoined(p.sources[i].modules);
    }
    assert EntriesOf(RecordsOf(p.sources)) == p.sources;
  }

  lemma {:induction false} WithRepoFrom(sources: seq<Dockerfile.Source>)
    ensures forall s :: s in WithRepo(sources) ==> s in sources
  {
    if sources != [] { WithRepoFrom(sources[..|sources| - 1]); }
  }

  /** Committing and importing leaves the tab with the normalized pipeline. */
  lemma ImportAfterCommit(files: map<string, string>, y: Yaml, l: Dockerfile.Letters, t: Tab)
    requires Lossless(y)
    ensures Data(Imported(ParseManifest(y, Committed(files, y, l, Data(t))[MANIFEST_PATH]))) == Normalized(Data(t))
  {
    hide Lines, ParseManifest, RenderManifest, DockerText, Entries, Lossless;
    var p := Data(t);
    assert MANIFEST_PATH != DOCKERFILE_PATH by { assert |MANIFEST_PATH| != |DOCKERFILE_PATH|; }
    ParseRendered(y, p);
    LinesAreEntries(t.apt);
    LinesAreEntries(t.pip);
    WithRepoFrom(p.sources);
    var sources := WithRepo(p.sources);
    forall i | 0 <= i < |sources| ensures Entries(sources[i].modules) {
      assert sources[i] in p.sources;
      var k :| 0 <= k < |p.sources| && p.sources[k] == sources[i];
      LinesAreEntries(t.sources[k].modules);
    }
    DataOfImported(Normalized(p));
  }

  /** Pipelines do not drift: committing again after a commit and an import writes no file, exactly when every source names
      its repository (which the record requires). */
  lemma CommitImportCommit(files: map<string, string>, y: Yaml, l: Dockerfile.Letters, t: Tab)
    requires Lossless(y)
    ensures var once := Committed(files, y, l, Data(t));
            var again := Data(Imported(ParseManifest(y, once[MANIFEST_PATH])));
            Writes(once, y, l, again) == 0 <==> forall i :: 0 <= i < |t.sources| ==> t.sources[i].repo != ""
  {
    hide Lines, ParseManifest, Imported, Normalized, RenderManifest, DockerText, WithRepo, Writes, Lossless;
    var p := Data(t);
    ImportAfterCommit(files, y, l, t);
    WithRepoIff(p.sources);
    assert forall i :: 0 <= i < |t.sources| ==> p.sources[i].repo == t.sources[i].repo;
    NoWritesIff(files, y, l, p, Normalized(p));
    if |WithRepo(p.sources)| == |p.sources| {
      SameRendering(y, l, p);
    } else {
      OtherManifest(y, p);
    }
  }

  lemma NoWritesIff(files: map<string, string>, y: Yaml, l: Dockerfile.Letters, p: Dockerfile.Pipeline, q: Dockerfile.Pipeline)
    ensures Writes(Committed(files, y, l, p), y, l, q) == 0 <==>
              RenderManifest(y, q) == RenderManifest(y, p) && DockerText(l, q) == DockerText(l, p)
  {
    hide RenderManifest, DockerText;
    assert MANIFEST_PATH != DOCKERFILE_PATH by { assert |MANIFEST_PATH| != |DOCKERFILE_PATH|; }
  }

  lemma SameRendering(y: Yaml, l: Dockerfile.Letters, p: Dockerfile.Pipeline)
    requires WithRepo(p.sources) == p.sources
    ensures RenderManifest(y, Normalized(p)) == RenderManifest(y, p) && DockerText(l, Normalized(p)) == DockerText(l, p)
  {
    assert Dockerfile.DEFAULT_BASE_IMAGE != "";
  }

  lemma OtherManifest(y: Yaml, p: Dockerfile.Pipeline)
    requires Lossless(y) && |WithRepo(p.sources)| != |p.sources|
    ensures RenderManifest(y, Normalized(p)) != RenderManifest(y, p)
  {
    var a, b := ManifestNode(p), ManifestNode(Normalized(p));
    assert a.fields["addons"].items == SourceNodes(p.sources) && b.fields["addons"].items == SourceNodes(WithRepo(p.sources));
    assert y.load(HEADER + y.dump(a)) == a && y.load(HEADER + y.dump(b)) == b;
  }

  /** The application's Pipeline tab and the repository behind it. */
  class PipelineTab {
    const yaml: Yaml
    const letters: Dockerfile.Letters
    var tab: Tab
    var files: map<string, string>

    constructor (yaml: Yaml, letters: Dockerfile.Letters, tab: Tab, files: map<string, string>)
      ensures this.yaml == yaml && this.letters == letters && this.tab == tab && this.files == files
    {
      this.yaml, this.letters, this.tab, this.files := yaml, letters, tab, files;
    }

    /** Writes one file if its text has changed. */
    method CommitFile(path: string, text: string) returns (written: nat)
      modifies this`files
      ensures files == old(files)[path := text]
      ensures written == if Differs(old(files), path, text) then 1 else 0
    {
      if path in files && files[path] == text {
        assert files[path := text] == files;
        return 0;
      }
      files := files[path := text];
      written := 1;
    }

    /** Writes the files whose text has changed. */
    method Commit() returns (writes: nat)
      modifies this`files
      ensures files == Committed(old(files), yaml, letters, Data(tab))
      ensures writes == Writes(old(files), yaml, letters, Data(tab))
    {
      hide Data, RenderManifest;
      assert MANIFEST_PATH != DOCKERFILE_PATH by { assert |MANIFEST_PATH| != |DOCKERFILE_PATH|; }
      var data := Data(tab);
      var dockerfile := Dockerfile.RenderDockerfile(letters, data);
      hide Dockerfile.Body, Join;
      var texts := [(MANIFEST_PATH, RenderManifest(yaml, data)), (DOCKERFILE_PATH, dockerfile)];
      writes := 0;
      var i := 0;
      while i < |texts|
        invariant i <= 2
        invariant i == 0 ==> files == old(files) && writes == 0
        invariant i == 1 ==> files == old(files)[MANIFEST_PATH := texts[0].1]
                             && writes == if Differs(old(files), MANIFEST_PATH, texts[0].1) then 1 else 0
        invariant i == 2 ==> files == old(files)[MANIFEST_PATH := texts[0].1][DOCKERFILE_PATH := texts[1].1]
                             && writes == (if Differs(old(files), MANIFEST_PATH, texts[0].1) then 1 else 0)
                                          + if Differs(old(files), DOCKERFILE_PATH, texts[1].1) then 1 else 0
      {
        var written := CommitFile(texts[i].0, texts[i].1);
        writes := writes + written;
        i := i + 1;
      }
    }

    /** Reads the manifest into the tab; fails when the repository has none. */
    method Import() returns (imported: bool)
      modifies this`tab
      ensures imported <==> MANIFEST_PATH in files
      ensures tab == if imported then Imported(ParseManifest(yaml, files[MANIFEST_PATH])) else old(tab)
    {
      if MANIFEST_PATH !in files { return false; }
      tab := Imported(ParseManifest(yaml, files[MANIFEST_PATH]));
      imported := true;
    }
  }
}
