/** What the image holds that the rendered Dockerfile builds: its instructions are carried out, word by word, on the stages of
    a build. */
module DockerfileImage {
  import opened Text
  import opened Wrappers
  import opened Dockerfile
  import opened DockerfileMeaning
  import opened DockerfileWords
  import PipelineManifest

  // ---- carrying instructions out ----

  /** What ends up among the addons: a module of a repository at a branch ("" for its default), all of its modules, or what
      the build context holds under a path. */
  datatype Addon = Module(repo: string, branch: string, name: string) | AllModules(repo: string, branch: string)

  datatype Delivery = FromContext(source: string, target: string) | FromStage(addons: seq<Addon>)

  /** A stage of the build: what it starts from, who it runs as, the checkout in it, and what has been put into it. */
  datatype Stage = Stage(base: string, user: string, tools: set<string>, directories: set<string>,
                         checkout: Option<(string, string)>, gathered: seq<Addon>, apt: seq<string>, pip: seq<string>,
                         volumes: seq<Delivery>)

  datatype Build = Build(args: map<string, string>, stages: map<string, Stage>, current: string)

  function UpTo(s: string, c: char): (r: (string, string))
    ensures |r.0| <= |s|
  {
    if s == "" then ("", "") else if s[0] == c then ("", s[1..]) else ([s[0]] + UpTo(s[1..], c).0, UpTo(s[1..], c).1)
  }

  /** A shell command; one that is not known, or whose needs are not met, does nothing. */
  function Perform(s: Stage, command: seq<string>): Stage {
    var n := |command|;
    if n == 4 && command[..3] == ["apk", "add", "--no-cache"] then s.(tools := s.tools + {command[3]})
    else if n == 3 && command[..2] == ["mkdir", "-p"] then s.(directories := s.directories + {command[2] + "/"})
    else if n >= 6 && command[..4] == ["git", "clone", "--depth", "1"] && "git" in s.tools && command[n - 1] + "/" == CHECKOUT then
      if n == 6 then s.(checkout := Some((command[4], "")))
      else if n == 8 && command[4] == "--branch" then s.(checkout := Some((command[6], command[5])))
      else s
    else if n == 4 && command[..2] == ["cp", "-a"] && command[3] == GATHERED then
      if s.checkout.Some? && GATHERED in s.directories && CHECKOUT <= command[2] then
        s.(gathered := s.gathered + [Module(s.checkout.value.0, s.checkout.value.1, command[2][|CHECKOUT|..])])
      else s
    else if n == 11 && command[..7] == ["for", "m", "in", "/tmp/src/*/__manifest__.py;", "do", "cp", "-a"]
            && command[7..9] == ["\"$(dirname", "\"$m\")\""] && command[9..] == [GATHERED + ";", "done"] then
      if s.checkout.Some? && GATHERED in s.directories then
        s.(gathered := s.gathered + [AllModules(s.checkout.value.0, s.checkout.value.1)])
      else s
    else if n >= 4 && command[..4] == ["apt-get", "install", "-y", "--no-install-recommends"] then
      if s.user == "root" then s.(apt := s.apt + command[4..]) else s
    else if n >= 2 && command[..2] == ["pip", "install"] then s.(pip := s.pip + command[2..])
    else s
  }

  /** The words up to the next `&&`. */
  function FirstCommand(words: seq<string>): (r: seq<string>)
    ensures |r| <= |words|
  {
    if words == [] || words[0] == "&&" then [] else [words[0]] + FirstCommand(words[1..])
  }

  function PerformAll(s: Stage, words: seq<string>): Stage
    decreases |words|
  {
    if |words| == 0 then s
    else
      var command := FirstCommand(words);
      var next := Perform(s, command);
      if |command| + 1 >= |words| then next else PerformAll(next, words[|command| + 1..])
  }

  /** A build argument stands for its value. */
  function Resolved(b: Build, name: string): string {
    if |name| > 3 && name[..2] == "${" && name[|name| - 1] == '}' && name[2..|name| - 1] in b.args then b.args[name[2..|name| - 1]]
    else name
  }

  /** A stage starts from an earlier one, or from an image. */
  function Started(b: Build, name: string): Stage {
    var base := Resolved(b, name);
    if base in b.stages then b.stages[base] else Stage(base, "", {}, {}, None, [], [], [], [])
  }

  function Changed(b: Build, s: Stage): Build {
    b.(stages := b.stages[b.current := s])
  }

  function Step(b: Build, line: string): Build {
    var w := Words(line);
    if |w| == 2 && w[0] == "ARG" then
      var (name, value) := UpTo(w[1], '=');
      b.(args := b.args[name := value])
    else if |w| == 4 && w[0] == "FROM" && w[2] == "AS" then Changed(b.(current := w[3]), Started(b, w[1]))
    else if |w| == 2 && w[0] == "FROM" then Changed(b.(current := ""), Started(b, w[1]))
    else if b.current !in b.stages then b
    else
      var s := b.stages[b.current];
      if |w| >= 1 && w[0] == "RUN" then Changed(b, PerformAll(s, w[1..]))
      else if |w| == 2 && w[0] == "USER" then Changed(b, s.(user := w[1]))
      else if |w| == 3 && w[0] == "COPY" then Changed(b, s.(volumes := s.volumes + [FromContext(w[1], w[2])]))
      else if |w| == 4 && w[0] == "COPY" && "--from=" <= w[1] && w[1][7..] in b.stages && w[2] == GATHERED
              && w[3] == "/volumes/extra_addons/" then
        Changed(b, s.(volumes := s.volumes + [FromStage(b.stages[w[1][7..]].gathered)]))
      else b
  }

  function Steps(b: Build, lines: seq<string>): Build
    decreases |lines|
  {
    if |lines| == 0 then b else Steps(Step(b, lines[0]), lines[1..])
  }

  const NOTHING: Build := Build(map[], map[], "")

  // ---- what was asked for ----

  function AddonsOf(s: Source): seq<Addon> {
    if s.modules == [] then [AllModules(s.repo, s.branch)]
    else seq(|s.modules|, i requires 0 <= i < |s.modules| => Module(s.repo, s.branch, s.modules[i]))
  }

  function Volumes(sources: seq<Source>): seq<Delivery> {
    [FromContext("config/odoo.conf", "/volumes/config/odoo.conf"), FromContext("extra_addons", "/volumes/extra_addons")]
    + seq(|sources|, i requires 0 <= i < |sources| => FromStage(AddonsOf(sources[i])))
    + [FromContext("addons", "/volumes/addons")]
  }

  /** Everything that a pipeline names is one word of the shell. */
  predicate Wordy(s: string) {
    IsWord(s) && s != "&&"
  }

  predicate AllWordy(items: seq<string>) {
    forall i :: 0 <= i < |items| ==> Wordy(items[i])
  }

  /** The base image is no name of a stage. */
  predicate Plain(p: Pipeline) {
    && (p.baseImage != "" ==> IsWord(p.baseImage)) && !("addons_" <= p.baseImage)
    && AllWordy(p.apt) && AllWordy(p.pip)
    && forall i :: 0 <= i < |p.sources| ==> PlainSource(p.sources[i])
  }

  predicate PlainSource(s: Source) {
    Wordy(s.repo) && (s.branch != "" ==> Wordy(s.branch)) && AllWordy(s.modules)
  }

  // ---- carrying out each part ----

  lemma {:induction false} StepsInTwo(b: Build, front: seq<string>, back: seq<string>)
    ensures Steps(b, front + back) == Steps(Steps(b, front), back)
    decreases |front|
  {
    hide Step;
    if front == [] {
      assert front + back == back;
    } else {
      assert (front + back)[1..] == front[1..] + back;
      StepsInTwo(Step(b, front[0]), front[1..], back);
    }
  }

  lemma {:induction false} FirstCommandIs(command: seq<string>, rest: seq<string>)
    requires "&&" !in command
    ensures FirstCommand(command + ["&&"] + rest) == command && FirstCommand(command) == command
  {
    if command == [] {
      assert (command + ["&&"] + rest)[0] == "&&";
    } else {
      assert (command + ["&&"] + rest)[1..] == command[1..] + ["&&"] + rest;
      FirstCommandIs(command[1..], rest);
      assert command == [command[0]] + command[1..];
    }
  }

  lemma OneCommand(s: Stage, command: seq<string>)
    requires "&&" !in command
    ensures PerformAll(s, command) == if command == [] then s else Perform(s, command)
  {
    hide Perform;
    FirstCommandIs(command, []);
  }

  lemma CommandAnd(s: Stage, command: seq<string>, rest: seq<string>)
    requires "&&" !in command && rest != []
    ensures PerformAll(s, command + ["&&"] + rest) == PerformAll(Perform(s, command), rest)
  {
    hide Perform;
    FirstCommandIs(command, rest);
    assert (command + ["&&"] + rest)[|command| + 1..] == rest;
  }

  lemma RunStep(b: Build, line: string, words: seq<string>)
    requires Words(line) == ["RUN"] + words && b.current in b.stages && |words| > 0 && (|words| == 3 ==> words[1] != "AS")
    ensures Step(b, line) == Changed(b, PerformAll(b.stages[b.current], words))
  {
    hide PerformAll, Words;
    assert (["RUN"] + words)[1..] == words;
  }

  lemma FromStep(b: Build, line: string, from: string, name: string)
    requires Words(line) == ["FROM", from, "AS", name]
    ensures Step(b, line) == Changed(b.(current := name), Started(b, from))
  {
    hide Words, Started;
  }

  lemma {:induction false} UpToIs(front: string, c: char, back: string)
    requires c !in front
    ensures UpTo(front + [c] + back, c) == (front, back)
  {
    var s := front + [c] + back;
    if front == "" {
      assert s[1..] == back;
    } else {
      assert s[1..] == front[1..] + [c] + back;
      UpToIs(front[1..], c, back);
      assert front == [front[0]] + front[1..];
    }
  }

  const ARGUMENT: string := "ODOO_BASE_IMAGE"

  lemma ArgStep(b: Build, value: string)
    requires value == "" || IsWord(value)
    ensures Step(b, "ARG ODOO_BASE_IMAGE=" + value) == b.(args := b.args[ARGUMENT := value])
  {
    assert IsWord("ODOO_BASE_IMAGE=" + value) && '=' !in ARGUMENT;
    assert "ODOO_BASE_IMAGE=" + value == ARGUMENT + ['='] + value;
    hide Words, IsWord;
    ArgWords(value);
    UpToIs(ARGUMENT, '=', value);
  }

  /** Where the addons are fetched: a stage with git and the directory that gathers them. */
  const TOOLBOX: Stage := Stage("alpine:3.20", "", {"git"}, {GATHERED}, None, [], [], [], [])

  lemma ToolParts()
    ensures IsWord("alpine:3.20") && IsWord("addons_base") && "FROM alpine:3.20 AS addons_base" == "FROM " + "alpine:3.20" + " AS " + "addons_base"
    ensures "alpine:3.20"[0] == 'a' && |"alpine:3.20"| == 11
  {
  }

  lemma ToolCommands(s: Stage)
    ensures PerformAll(s, ["apk", "add", "--no-cache", "git"] + ["&&"] + ["mkdir", "-p", "/tmp/extra_addons"])
            == s.(tools := s.tools + {"git"}, directories := s.directories + {GATHERED})
  {
    var a, m := ["apk", "add", "--no-cache", "git"], ["mkdir", "-p", "/tmp/extra_addons"];
    var t := s.(tools := s.tools + {"git"});
    assert Perform(s, a) == t by { assert a[..3] == ["apk", "add", "--no-cache"]; }
    assert Perform(t, m) == t.(directories := t.directories + {GATHERED}) by { MkdirPerforms(t); }
    hide Perform, PerformAll;
    CommandAnd(s, a, m);
    OneCommand(t, m);
  }

  lemma MkdirPerforms(t: Stage)
    ensures Perform(t, ["mkdir", "-p", "/tmp/extra_addons"]) == t.(directories := t.directories + {GATHERED})
  {
    var m := ["mkdir", "-p", "/tmp/extra_addons"];
    assert m[..2] == ["mkdir", "-p"];
    assert "/tmp/extra_addons" + "/" == GATHERED;
  }

  lemma PlainName(b: Build, name: string)
    requires name != "" && name[0] != '$'
    ensures Resolved(b, name) == name
  {
    if |name| > 3 { assert name[..2][0] == name[0]; }
  }

  lemma ToolboxBuilt(b: Build)
    requires "alpine:3.20" !in b.stages
    ensures Steps(b, AllGlued(ADDONS_BASE)) == b.(current := "addons_base", stages := b.stages["addons_base" := TOOLBOX])
  {
    hide Words, IsWord, PerformAll, Step, Glued, AllWords;
    var from, fetch := "FROM alpine:3.20 AS addons_base", ["RUN apk add --no-cache git", "    " + "&& mkdir -p /tmp/extra_addons"];
    ToolParts();
    PlainName(b, "alpine:3.20");
    hide Resolved;
    StartAsWords("alpine:3.20", "addons_base");
    FromStep(b, from, "alpine:3.20", "addons_base");
    var b1 := Step(b, from);
    ToolWords(fetch);
    var commands := ["apk", "add", "--no-cache", "git"] + ["&&"] + ["mkdir", "-p", "/tmp/extra_addons"];
    RunStep(b1, Glued(fetch), commands);
    ToolCommands(b1.stages["addons_base"]);
    assert {} + {"git"} == {"git"} && {} + {GATHERED} == {GATHERED};
    assert ADDONS_BASE == [[from], fetch];
    TwoGlued(from, fetch);
    TwoSteps(b, from, Glued(fetch));
  }

  lemma ToolWords(fetch: Instruction)
    requires fetch == ["RUN apk add --no-cache git", "    " + "&& mkdir -p /tmp/extra_addons"]
    ensures Words(Glued(fetch)) == ["RUN"] + (["apk", "add", "--no-cache", "git"] + ["&&"] + ["mkdir", "-p", "/tmp/extra_addons"])
  {
    hide Words, Glued;
    WordsGlued(fetch);
    TwoPieces(fetch[0], fetch[1]);
    ApkWords();
    MkdirWords();
    Indented("&& mkdir -p /tmp/extra_addons");
  }

  lemma TwoPieces(a: string, b: string)
    ensures AllWords([a, b]) == Words(a) + Words(b)
  {
    hide Words;
    assert [a, b][1..] == [b] && [b][1..] == [];
    assert AllWords([b]) == Words(b) + AllWords([]);
  }

  lemma TwoGlued(line: string, pieces: Instruction)
    ensures AllGlued([[line], pieces]) == [line, Glued(pieces)]
  {
    assert [[line], pieces][1..] == [pieces] && [pieces][1..] == [];
    assert AllGlued([pieces]) == [Glued(pieces)] + AllGlued([]);
  }

  lemma TwoSteps(b: Build, x: string, y: string)
    ensures Steps(b, [x, y]) == Step(Step(b, x), y)
  {
    hide Step;
    assert [x, y][1..] == [y] && [y][1..] == [];
    assert Steps(Step(b, x), [y]) == Steps(Step(Step(b, x), y), []);
  }

  // ---- the sources ----

  function PerformEach(s: Stage, commands: seq<seq<string>>): Stage
    decreases |commands|
  {
    if |commands| == 0 then s else PerformEach(Perform(s, commands[0]), commands[1..])
  }

  /** Further commands, each after `&&`. */
  function Chained(commands: seq<seq<string>>): seq<string> {
    if commands == [] then [] else ["&&"] + commands[0] + Chained(commands[1..])
  }

  predicate Commands(commands: seq<seq<string>>) {
    forall i :: 0 <= i < |commands| ==> commands[i] != [] && "&&" !in commands[i]
  }

  lemma {:induction false} ChainPerforms(s: Stage, first: seq<string>, commands: seq<seq<string>>)
    requires first != [] && "&&" !in first && Commands(commands)
    ensures PerformAll(s, first + Chained(commands)) == PerformEach(Perform(s, first), commands)
    decreases |commands|
  {
    hide Perform;
    if commands == [] {
      assert first + Chained(commands) == first;
      OneCommand(s, first);
    } else {
      var rest := commands[0] + Chained(commands[1..]);
      assert first + Chained(commands) == first + ["&&"] + rest;
      CommandAnd(s, first, rest);
      ChainPerforms(Perform(s, first), commands[0], commands[1..]);
    }
  }

  /** The copies of modules. */
  function CopiesOf(modules: seq<string>): (r: seq<seq<string>>)
    ensures |r| == |modules| && forall i :: 0 <= i < |r| ==> r[i] == ["cp", "-a", CHECKOUT + modules[i], GATHERED]
  {
    seq(|modules|, i requires 0 <= i < |modules| => ["cp", "-a", CHECKOUT + modules[i], GATHERED])
  }

  lemma {:induction false} CopyPiecesWords(modules: seq<string>)
    requires AllWordy(modules)
    ensures AllWords(Each(modules, MODULE_BEFORE, MODULE_AFTER)) == Chained(CopiesOf(modules))
    decreases |modules|
  {
    hide Words, IsWord;
    if modules != [] {
      var pieces := Each(modules, MODULE_BEFORE, MODULE_AFTER);
      assert pieces[1..] == Each(modules[1..], MODULE_BEFORE, MODULE_AFTER);
      assert CopiesOf(modules)[1..] == CopiesOf(modules[1..]);
      assert Wordy(modules[0]);
      assert ' ' !in modules[0] by { NoBlank(modules[0]); }
      ModuleWords(modules[0]);
      CopyPiecesWords(modules[1..]);
      assert ["&&", "cp", "-a", CHECKOUT + modules[0], GATHERED] == ["&&"] + CopiesOf(modules)[0];
    }
  }

  lemma NoBlank(w: string)
    requires IsWord(w)
    ensures ' ' !in w
  {
  }

  function ModulesOf(repo: string, branch: string, modules: seq<string>): (r: seq<Addon>)
    ensures |r| == |modules| && forall i :: 0 <= i < |r| ==> r[i] == Module(repo, branch, modules[i])
  {
    seq(|modules|, i requires 0 <= i < |modules| => Module(repo, branch, modules[i]))
  }

  lemma CopyPerforms(s: Stage, m: string)
    requires s.checkout.Some? && GATHERED in s.directories
    ensures Perform(s, ["cp", "-a", CHECKOUT + m, GATHERED])
            == s.(gathered := s.gathered + [Module(s.checkout.value.0, s.checkout.value.1, m)])
  {
    var command := ["cp", "-a", CHECKOUT + m, GATHERED];
    assert command[..3][0] == "cp" && command[..2] == ["cp", "-a"];
    assert CHECKOUT <= CHECKOUT + m && (CHECKOUT + m)[|CHECKOUT|..] == m;
  }

  lemma {:induction false} CopiesPerform(s: Stage, modules: seq<string>)
    requires s.checkout.Some? && GATHERED in s.directories
    ensures PerformEach(s, CopiesOf(modules))
            == s.(gathered := s.gathered + ModulesOf(s.checkout.value.0, s.checkout.value.1, modules))
    decreases |modules|
  {
    hide Perform;
    if modules == [] {
      assert s.gathered + [] == s.gathered;
    } else {
      assert CopiesOf(modules)[1..] == CopiesOf(modules[1..]);
      CopyPerforms(s, modules[0]);
      var next := Perform(s, CopiesOf(modules)[0]);
      CopiesPerform(next, modules[1..]);
      var repo, branch := s.checkout.value.0, s.checkout.value.1;
      assert s.gathered + [Module(repo, branch, modules[0])] + ModulesOf(repo, branch, modules[1..])
             == s.gathered + ModulesOf(repo, branch, modules);
    }
  }

  lemma LoopPerforms(s: Stage)
    requires s.checkout.Some? && GATHERED in s.directories
    ensures LOOP == ["&&"] + LOOP[1..] && "&&" !in LOOP[1..]
    ensures Perform(s, LOOP[1..]) == s.(gathered := s.gathered + [AllModules(s.checkout.value.0, s.checkout.value.1)])
  {
    var c := LOOP[1..];
    assert c == ["for", "m", "in", "/tmp/src/*/__manifest__.py;", "do", "cp", "-a", "\"$(dirname", "\"$m\")\"", GATHERED + ";", "done"];
    assert c[..7] == ["for", "m", "in", "/tmp/src/*/__manifest__.py;", "do", "cp", "-a"];
    assert c[7..9] == ["\"$(dirname", "\"$m\")\""] && c[9..] == [GATHERED + ";", "done"];
    assert c[..4][0] == "for" && c[..2][0] == "for";
  }

  /** The clone as a command. */
  function Clone(s: Source): seq<string> {
    ["git", "clone", "--depth", "1"] + (if s.branch != "" then ["--branch", s.branch] else []) + [s.repo, "/tmp/src"]
  }

  lemma ClonePerforms(t: Stage, s: Source)
    requires "git" in t.tools && Wordy(s.repo) && (s.branch != "" ==> Wordy(s.branch))
    ensures "&&" !in Clone(s) && Perform(t, Clone(s)) == t.(checkout := Some((s.repo, s.branch)))
  {
    var c := Clone(s);
    assert c[..4] == ["git", "clone", "--depth", "1"] && c[..3][0] == "git" && c[..2][0] == "git";
    assert "/tmp/src" + "/" == CHECKOUT;
  }

  /** The stage of a source. */
  function Fetched(s: Source): Stage {
    TOOLBOX.(checkout := Some((s.repo, s.branch)), gathered := AddonsOf(s))
  }

  lemma FetchPerforms(s: Source)
    requires Wordy(s.repo) && (s.branch != "" ==> Wordy(s.branch))
    ensures var commands := if s.modules == [] then [LOOP[1..]] else CopiesOf(s.modules);
            Commands(commands) && PerformAll(TOOLBOX, Clone(s) + Chained(commands)) == Fetched(s)
  {
    var t := TOOLBOX.(checkout := Some((s.repo, s.branch)));
    assert "git" in TOOLBOX.tools && GATHERED in TOOLBOX.directories;
    hide Perform, PerformAll, Chained;
    ClonePerforms(TOOLBOX, s);
    if s.modules == [] {
      LoopPerforms(t);
      ChainPerforms(TOOLBOX, Clone(s), [LOOP[1..]]);
      assert [LOOP[1..]][1..] == [];
      assert PerformEach(t, [LOOP[1..]]) == PerformEach(Perform(t, LOOP[1..]), []);
      assert [] + [AllModules(s.repo, s.branch)] == AddonsOf(s);
    } else {
      NoAnd(s.modules);
      ChainPerforms(TOOLBOX, Clone(s), CopiesOf(s.modules));
      CopiesPerform(t, s.modules);
      assert [] + ModulesOf(s.repo, s.branch, s.modules) == AddonsOf(s);
    }
  }

  lemma NoAnd(modules: seq<string>)
    ensures Commands(CopiesOf(modules))
  {
    forall i | 0 <= i < |modules| ensures "&&" !in CopiesOf(modules)[i] {
      assert |CHECKOUT + modules[i]| > 2;
    }
  }

  /** The one line of the clone and its copies. */
  function FetchPieces(s: Source): Instruction {
    [CloneCommand(s)] + if s.modules == [] then [TAKE_ALL] else Each(s.modules, MODULE_BEFORE, MODULE_AFTER)
  }

  lemma LoopChained()
    ensures Chained([LOOP[1..]]) == LOOP
  {
    LoopPerforms(TOOLBOX.(checkout := Some(("", ""))));
    assert [LOOP[1..]][1..] == [];
    assert Chained([LOOP[1..]]) == ["&&"] + LOOP[1..] + Chained([]);
  }

  lemma FetchWords(s: Source)
    requires Wordy(s.repo) && (s.branch != "" ==> Wordy(s.branch)) && AllWordy(s.modules)
    ensures Words(Glued(FetchPieces(s)))
            == ["RUN"] + (Clone(s) + Chained(if s.modules == [] then [LOOP[1..]] else CopiesOf(s.modules)))
  {
    hide Words, IsWord, Glued, CloneCommand, AllWordy;
    var pieces := FetchPieces(s);
    WordsGlued(pieces);
    CloneWords(s);
    assert pieces[1..] == if s.modules == [] then [TAKE_ALL] else Each(s.modules, MODULE_BEFORE, MODULE_AFTER);
    assert Words(CloneCommand(s)) == ["RUN"] + Clone(s);
    if s.modules == [] {
      LoopWords();
      OnePiece(TAKE_ALL);
      LoopChained();
      hide Chained;
    } else {
      CopyPiecesWords(s.modules);
    }
  }

  lemma OnePiece(a: string)
    ensures AllWords([a]) == Words(a)
  {
    hide Words;
    assert [a][1..] == [];
  }

  lemma SourceBuilt(b: Build, s: Source, stage: string)
    requires "addons_base" in b.stages && b.stages["addons_base"] == TOOLBOX && IsWord(stage)
    requires Wordy(s.repo) && (s.branch != "" ==> Wordy(s.branch)) && AllWordy(s.modules)
    ensures Steps(b, AllGlued(SourceInstructions(s, stage))) == b.(current := stage, stages := b.stages[stage := Fetched(s)])
  {
    hide Words, IsWord, PerformAll, Step, Glued, Wordy, AllWordy, Chained, Clone, CloneCommand;
    var from, fetch := "FROM addons_base AS " + stage, FetchPieces(s);
    var commands := if s.modules == [] then [LOOP[1..]] else CopiesOf(s.modules);
    ToolParts();
    PlainName(b, "addons_base");
    StageLine(stage);
    FromStep(b, from, "addons_base", stage);
    var b1 := Step(b, from);
    hide Resolved;
    FetchWords(s);
    assert |Clone(s)| > 3 by { CloneLong(s); }
    RunStep(b1, Glued(fetch), Clone(s) + Chained(commands));
    FetchPerforms(s);
    assert SourceInstructions(s, stage) == [[from], fetch];
    TwoGlued(from, fetch);
    TwoSteps(b, from, Glued(fetch));
  }

  lemma CloneLong(s: Source) ensures |Clone(s)| > 3 {}

  lemma StageLine(stage: string)
    requires IsWord(stage)
    ensures Words("FROM addons_base AS " + stage) == ["FROM", "addons_base", "AS", stage]
  {
    ToolParts();
    hide Words, IsWord;
    StartAsWords("addons_base", stage);
    assert "FROM addons_base AS " == "FROM " + "addons_base" + " AS ";
  }

  lemma StageNameIsWord(l: Letters, repo: string, index: nat)
    requires Sane(l)
    ensures IsWord(StageName(l, repo, index)) && "addons_" <= StageName(l, repo, index)
  {
    SlugIsWord(l, repo);
    assert ' ' !in Decimal(index);
    hide StageSlug;
  }

  lemma SlugIsWord(l: Letters, repo: string)
    requires Sane(l)
    ensures ' ' !in StageSlug(l, repo)
  {
    var raw := Underscored(l, l.lower(WithoutGit(Tail(RStrip(repo, SLASH)))));
    var p := (c: char) => l.alnum(c) || c == '_';
    assert All(raw, p);
    StripKeepsAll(raw, UNDERSCORE, p);
    SlugIs(l, repo);
    hide StageSlug, Underscored, Strip;
    var slug := Strip(raw, UNDERSCORE);
    assert All(slug, p);
    forall i | 0 <= i < |slug| ensures slug[i] != ' ' { assert p(slug[i]); }
    assert ' ' !in "src";
  }

  /** The stages of the first sources, beside what was there. */
  ghost predicate SourcesThere(l: Letters, b: Build, b': Build, sources: seq<Source>) {
    && b'.args == b.args
    && "addons_base" in b'.stages && b'.stages["addons_base"] == TOOLBOX
    && (forall n :: n in b'.stages ==> n in b.stages || "addons_" <= n)
    && forall i :: 0 <= i < |sources| ==>
         StageName(l, sources[i].repo, i) in b'.stages && b'.stages[StageName(l, sources[i].repo, i)] == Fetched(sources[i])
  }

  lemma {:induction false} GluedConcat(x: seq<Instruction>, y: seq<Instruction>)
    ensures AllGlued(x + y) == AllGlued(x) + AllGlued(y)
    decreases |x|
  {
    hide Glued;
    if x == [] {
      assert x + y == y;
    } else {
      assert (x + y)[1..] == x[1..] + y;
      GluedConcat(x[1..], y);
    }
  }

  lemma OneSourceMore(l: Letters, b: Build, b1: Build, b2: Build, sources: seq<Source>)
    requires sources != [] && SourcesThere(l, b, b1, sources[..|sources| - 1])
    requires var n := |sources| - 1;
             var stage := StageName(l, sources[n].repo, n);
             b2 == b1.(current := stage, stages := b1.stages[stage := Fetched(sources[n])]) && "addons_" <= stage
    ensures SourcesThere(l, b, b2, sources)
  {
    hide StageName, Fetched;
    var n := |sources| - 1;
    StageNamesDiffer(l, sources[n].repo, n, "", n + 1);
    forall i | 0 <= i < n ensures StageName(l, sources[i].repo, i) != StageName(l, sources[n].repo, n) {
      StageNamesDiffer(l, sources[i].repo, i, sources[n].repo, n);
    }
  }

  lemma {:induction false} SourcesBuilt(l: Letters, b: Build, sources: seq<Source>)
    requires Sane(l) && "addons_base" in b.stages && b.stages["addons_base"] == TOOLBOX
    requires forall i :: 0 <= i < |sources| ==> PlainSource(sources[i])
    ensures SourcesThere(l, b, Steps(b, AllGlued(AllSources(l, sources))), sources)
    decreases |sources|
  {
    if sources != [] {
      hide Step, Glued, StageName, SourceInstructions, Words, IsWord, Fetched, Sane, AllWordy;
      var n := |sources| - 1;
      var front, last := sources[..n], sources[n];
      SourcesBuilt(l, b, front);
      var b1 := Steps(b, AllGlued(AllSources(l, front)));
      var stage := StageName(l, last.repo, n);
      GluedConcat(AllSources(l, front), SourceInstructions(last, stage));
      StepsInTwo(b, AllGlued(AllSources(l, front)), AllGlued(SourceInstructions(last, stage)));
      StageNameIsWord(l, last.repo, n);
      AllSourcesLast(l, sources);
      assert PlainSource(last);
      assert "addons_base" in b1.stages && b1.stages["addons_base"] == TOOLBOX;
      SourceBuilt(b1, last, stage);
      hide SourcesThere, AllSources, AllGlued, Steps;
      OneSourceMore(l, b, b1, Steps(b1, AllGlued(SourceInstructions(last, stage))), sources);
    }
  }

  lemma AllSourcesLast(l: Letters, sources: seq<Source>)
    requires sources != []
    ensures var n := |sources| - 1;
            AllSources(l, sources) == AllSources(l, sources[..n]) + SourceInstructions(sources[n], StageName(l, sources[n].repo, n))
  {
    hide StageName, SourceInstructions;
  }

  // ---- the layers of the image ----

  lemma LayerParts()
    ensures IsWord("${ODOO_BASE_IMAGE}") && IsWord("configuration_layer") && "${ODOO_BASE_IMAGE}" == "${" + ARGUMENT + "}"
  {
  }

  lemma LayerLine1() ensures "FROM ${ODOO_BASE_IMAGE}" == "FROM " + "${ODOO_BASE_IMAGE}" {}

  lemma LayerLine2() ensures " AS configuration_layer" == " AS " + "configuration_layer" {}

  lemma LayerLine()
    ensures FROM_BASE == "FROM " + "${ODOO_BASE_IMAGE}" + " AS " + "configuration_layer"
  {
    LayerLine1();
    LayerLine2();
    Joined("FROM ", "${ODOO_BASE_IMAGE}", " AS ", "configuration_layer");
  }

  lemma Joined(a: string, b: string, c: string, d: string)
    ensures a + b + (c + d) == a + b + c + d
  {
  }

  lemma ArgumentResolved(b: Build)
    requires ARGUMENT in b.args
    ensures Resolved(b, "${ODOO_BASE_IMAGE}") == b.args[ARGUMENT]
  {
    LayerParts();
    var name := "${" + ARGUMENT + "}";
    assert name[..2] == "${" && name[2..|name| - 1] == ARGUMENT;
  }

  lemma UserStep(b: Build, line: string, user: string)
    requires Words(line) == ["USER", user] && b.current in b.stages
    ensures Step(b, line) == Changed(b, b.stages[b.current].(user := user))
  {
    hide Words;
  }

  lemma UserWords() ensures Words("USER root") == ["USER", "root"] && Words("USER ubuntu") == ["USER", "ubuntu"] {
    hide Words;
    TwoWords("USER", "root");
    TwoWords("USER", "ubuntu");
    assert "USER" + " " + "root" == "USER root" && "USER" + " " + "ubuntu" == "USER ubuntu";
  }

  /** The layer that the packages go into. */
  function Layer(base: string): Stage {
    Stage(base, "root", {}, {}, None, [], [], [], [])
  }

  lemma ConfigurationBuilt(b: Build)
    requires ARGUMENT in b.args && b.args[ARGUMENT] !in b.stages
    ensures Steps(b, AllGlued(CONFIGURATION))
            == b.(current := "configuration_layer", stages := b.stages["configuration_layer" := Layer(b.args[ARGUMENT])])
  {
    LayerParts();
    hide Words, IsWord, Step, Resolved;
    LayerLine();
    ArgumentResolved(b);
    StartAsWords("${ODOO_BASE_IMAGE}", "configuration_layer");
    FromStep(b, FROM_BASE, "${ODOO_BASE_IMAGE}", "configuration_layer");
    UserWords();
    UserStep(Step(b, FROM_BASE), "USER root", "root");
    TwoGlued(FROM_BASE, ["USER root"]);
    assert Glued(["USER root"]) == "USER root";
    TwoSteps(b, FROM_BASE, "USER root");
  }

  lemma {:induction false} PackagesWords(items: seq<string>)
    requires AllWordy(items)
    ensures AllWords(Each(items, "        ", "")) == items
    decreases |items|
  {
    hide Words, IsWord;
    if items != [] {
      assert Wordy(items[0]);
      PackageWords(items[0]);
      assert Each(items, "        ", "")[1..] == Each(items[1..], "        ", "");
      PackagesWords(items[1..]);
      assert items == [items[0]] + items[1..];
    }
  }

  lemma {:induction false} AllWordsConcat(x: seq<string>, y: seq<string>)
    ensures AllWords(x + y) == AllWords(x) + AllWords(y)
    decreases |x|
  {
    hide Words;
    if x == [] {
      assert x + y == y;
    } else {
      assert (x + y)[1..] == x[1..] + y;
      AllWordsConcat(x[1..], y);
    }
  }

  lemma NoAndIn(items: seq<string>)
    requires AllWordy(items)
    ensures "&&" !in items
  {
    hide IsWord;
    forall i | 0 <= i < |items| ensures items[i] != "&&" { assert Wordy(items[i]); }
  }

  lemma OneGlued(pieces: Instruction)
    ensures AllGlued([pieces]) == [Glued(pieces)]
  {
    hide Glued;
    assert [pieces][1..] == [];
  }

  lemma OneStep(b: Build, line: string)
    ensures Steps(b, [line]) == Step(b, line)
  {
    hide Step;
    assert [line][1..] == [];
  }

  lemma PipLineWords(pip: seq<string>)
    requires AllWordy(pip)
    ensures Words(Glued(["RUN pip install"] + Each(pip, "        ", ""))) == ["RUN"] + (["pip", "install"] + pip)
  {
    hide Words, Glued, AllWordy;
    WordsGlued(["RUN pip install"] + Each(pip, "        ", ""));
    AllWordsConcat(["RUN pip install"], Each(pip, "        ", ""));
    OnePiece("RUN pip install");
    PipWords();
    PackagesWords(pip);
  }

  lemma PipBuilt(b: Build, pip: seq<string>)
    requires AllWordy(pip) && b.current in b.stages && b.stages[b.current].pip == []
    ensures Steps(b, AllGlued(PipInstructions(pip))) == Changed(b, b.stages[b.current].(pip := pip))
  {
    if pip == [] {
      assert b.stages[b.current := b.stages[b.current]] == b.stages;
    } else {
      NoAndIn(pip);
      hide Words, Step, PerformAll, Perform, Glued, AllWordy;
      var line, command := Glued(["RUN pip install"] + Each(pip, "        ", "")), ["pip", "install"] + pip;
      PipLineWords(pip);
      RunStep(b, line, command);
      OneCommand(b.stages[b.current], command);
      PipPerforms(b.stages[b.current], pip);
      OneGlued(["RUN pip install"] + Each(pip, "        ", ""));
      OneStep(b, line);
    }
  }

  lemma PipPerforms(s: Stage, pip: seq<string>)
    requires s.pip == [] && pip != []
    ensures Perform(s, ["pip", "install"] + pip) == s.(pip := pip)
  {
    var c := ["pip", "install"] + pip;
    assert c[..2] == ["pip", "install"] && c[2..] == pip;
    if |c| >= 3 { assert c[..3][0] == "pip"; }
    if |c| >= 4 { assert c[..4][0] == "pip"; }
    if |c| >= 7 { assert c[..7][0] == "pip"; }
    assert [] + pip == pip;
  }

  function Update(): seq<string> { ["apt-get", "update"] }

  function Install(apt: seq<string>): seq<string> { ["apt-get", "install", "-y", "--no-install-recommends"] + apt }

  function CleanUp(): seq<string> { ["rm", "-rf", "/var/lib/apt/lists/*"] }

  function AptPieces(apt: seq<string>): Instruction {
    ["RUN apt-get update", APT_INSTALL] + Each(apt, "        ", "") + [APT_CLEAN]
  }

  lemma AptLineWords(apt: seq<string>)
    requires AllWordy(apt)
    ensures Words(Glued(AptPieces(apt))) == ["RUN"] + (Update() + ["&&"] + (Install(apt) + ["&&"] + CleanUp()))
  {
    hide Words, Glued, AllWordy;
    var front, items, last := ["RUN apt-get update", APT_INSTALL], Each(apt, "        ", ""), [APT_CLEAN];
    WordsGlued(AptPieces(apt));
    AllWordsConcat(front + items, last);
    AllWordsConcat(front, items);
    TwoPieces("RUN apt-get update", APT_INSTALL);
    OnePiece(APT_CLEAN);
    UpdateWords();
    InstallWords();
    CleanWords();
    PackagesWords(apt);
    AptGrouped(apt);
  }

  lemma AptGrouped(apt: seq<string>)
    ensures ["RUN", "apt-get", "update"] + ["&&", "apt-get", "install", "-y", "--no-install-recommends"] + apt
            + ["&&", "rm", "-rf", "/var/lib/apt/lists/*"]
            == ["RUN"] + (Update() + ["&&"] + (Install(apt) + ["&&"] + CleanUp()))
  {
  }

  lemma InstallPerforms(s: Stage, apt: seq<string>)
    requires s.user == "root" && s.apt == []
    ensures Perform(s, Install(apt)) == s.(apt := apt)
  {
    var c := Install(apt);
    assert c[..4] == ["apt-get", "install", "-y", "--no-install-recommends"] && c[4..] == apt;
    assert c[..2][0] == "apt-get" && c[..3][0] == "apt-get";
    if |c| >= 7 { assert c[..7][0] == "apt-get"; }
    assert [] + apt == apt;
  }

  lemma OthersPerform(s: Stage)
    ensures Perform(s, Update()) == s && Perform(s, CleanUp()) == s
  {
    assert Update()[..2][0] == "apt-get" && CleanUp()[..2][0] == "rm" && CleanUp()[..2] == ["rm", "-rf"];
  }

  lemma AptCommands(s: Stage, apt: seq<string>)
    requires AllWordy(apt) && s.user == "root" && s.apt == []
    ensures PerformAll(s, Update() + ["&&"] + (Install(apt) + ["&&"] + CleanUp())) == s.(apt := apt)
  {
    NoAndIn(apt);
    assert "&&" !in Update() && "&&" !in Install(apt) && "&&" !in CleanUp();
    OthersPerform(s);
    OthersPerform(s.(apt := apt));
    InstallPerforms(s, apt);
    assert Install(apt) + ["&&"] + CleanUp() != [] && CleanUp() != [];
    hide Perform, PerformAll, AllWordy, Update, Install, CleanUp;
    CommandAnd(s, Update(), Install(apt) + ["&&"] + CleanUp());
    CommandAnd(s, Install(apt), CleanUp());
    OneCommand(s.(apt := apt), CleanUp());
  }

  lemma AptBuilt(b: Build, apt: seq<string>)
    requires AllWordy(apt) && b.current in b.stages && b.stages[b.current].apt == [] && b.stages[b.current].user == "root"
    ensures Steps(b, AllGlued(AptInstructions(apt))) == Changed(b, b.stages[b.current].(apt := apt))
  {
    if apt == [] {
      assert b.stages[b.current := b.stages[b.current]] == b.stages;
    } else {
      var line, command := Glued(AptPieces(apt)), Update() + ["&&"] + (Install(apt) + ["&&"] + CleanUp());
      assert |command| > 3;
      hide Words, Step, PerformAll, Perform, Glued, AllWordy, Update, Install, CleanUp;
      AptLineWords(apt);
      RunStep(b, line, command);
      AptCommands(b.stages[b.current], apt);
      OneGlued(AptPieces(apt));
      OneStep(b, line);
    }
  }

  lemma LastLines1()
    ensures IsWord("config/odoo.conf") && "COPY config/odoo.conf" == "COPY " + "config/odoo.conf"
    ensures IsWord("extra_addons") && "COPY extra_addons" == "COPY " + "extra_addons"
  {
  }

  lemma LastLines2()
    ensures IsWord("/volumes/config/odoo.conf") && " /volumes/config/odoo.conf" == " " + "/volumes/config/odoo.conf"
  {
  }

  lemma LastLines3()
    ensures IsWord("/volumes/extra_addons") && " /volumes/extra_addons" == " " + "/volumes/extra_addons"
  {
  }

  lemma LastLines4()
    ensures IsWord("addons") && "COPY addons" == "COPY " + "addons" && IsWord("/volumes/addons") && " /volumes/addons" == " " + "/volumes/addons"
  {
  }

  lemma LastWords()
    ensures Words(COPY_CONFIG) == ["COPY", "config/odoo.conf", "/volumes/config/odoo.conf"]
    ensures Words(COPY_EXTRA) == ["COPY", "extra_addons", "/volumes/extra_addons"]
    ensures Words(COPY_ADDONS) == ["COPY", "addons", "/volumes/addons"]
  {
    LastLines1();
    LastLines2();
    LastLines3();
    LastLines4();
    hide Words, IsWord;
    CopyWords("config/odoo.conf", "/volumes/config/odoo.conf");
    CopyWords("extra_addons", "/volumes/extra_addons");
    CopyWords("addons", "/volumes/addons");
    Joined("COPY ", "config/odoo.conf", " ", "/volumes/config/odoo.conf");
    Joined("COPY ", "extra_addons", " ", "/volumes/extra_addons");
    Joined("COPY ", "addons", " ", "/volumes/addons");
  }

  lemma CopyStep(b: Build, line: string, from: string, to: string)
    requires Words(line) == ["COPY", from, to] && b.current in b.stages
    ensures var s := b.stages[b.current]; Step(b, line) == Changed(b, s.(volumes := s.volumes + [FromContext(from, to)]))
  {
    hide Words;
  }

  lemma StageCopyStep(b: Build, stage: string)
    requires ' ' !in stage && stage in b.stages && b.current in b.stages
    ensures var s := b.stages[b.current];
            Step(b, "COPY --from=" + stage + FROM_STAGE_TO_VOLUME)
            == Changed(b, s.(volumes := s.volumes + [FromStage(b.stages[stage].gathered)]))
  {
    StageCopyWords(stage);
    assert "--from=" <= "--from=" + stage && ("--from=" + stage)[7..] == stage;
    hide Words;
  }

  lemma LastFrom(b: Build)
    requires "configuration_layer" in b.stages
    ensures Step(b, "FROM configuration_layer") == b.(current := "", stages := b.stages["" := b.stages["configuration_layer"]])
  {
    LayerParts();
    assert "FROM configuration_layer" == "FROM " + "configuration_layer";
    assert "configuration_layer"[0] == 'c';
    hide Words, IsWord;
    StartWords("configuration_layer");
    PlainName(b, "configuration_layer");
    hide Resolved;
  }

  lemma WorkdirStep(b: Build)
    ensures Step(b, "WORKDIR /volumes") == b
  {
    assert "WORKDIR" + " " + "/volumes" == "WORKDIR /volumes";
    TwoWords("WORKDIR", "/volumes");
    hide Words;
  }

  lemma FinalGlued()
    ensures AllGlued(FINAL) == ["FROM configuration_layer"] + ["USER ubuntu"] + ["WORKDIR /volumes"] + [COPY_CONFIG] + [COPY_EXTRA]
  {
    var a, u, w, c, e := ["FROM configuration_layer"], ["USER ubuntu"], ["WORKDIR /volumes"], [COPY_CONFIG], [COPY_EXTRA];
    assert FINAL == [a] + [u] + [w] + [c] + [e];
    GluedConcat([a] + [u] + [w] + [c], [e]);
    GluedConcat([a] + [u] + [w], [c]);
    GluedConcat([a] + [u], [w]);
    GluedConcat([a], [u]);
    OneGlued(a);
    OneGlued(u);
    OneGlued(w);
    OneGlued(c);
    OneGlued(e);
  }

  lemma FinalBuilt(b: Build)
    requires "configuration_layer" in b.stages
    ensures var s := b.stages["configuration_layer"];
            Steps(b, AllGlued(FINAL))
            == b.(current := "",
                  stages := b.stages["" := s.(user := "ubuntu", volumes := s.volumes
                                      + [FromContext("config/odoo.conf", "/volumes/config/odoo.conf")]
                                      + [FromContext("extra_addons", "/volumes/extra_addons")])])
  {
    hide Words, Step, AllGlued, Steps;
    FinalGlued();
    var b1 := Step(b, "FROM configuration_layer");
    LastFrom(b);
    UserWords();
    UserStep(b1, "USER ubuntu", "ubuntu");
    var b2 := Step(b1, "USER ubuntu");
    WorkdirStep(b2);
    LastWords();
    CopyStep(b2, COPY_CONFIG, "config/odoo.conf", "/volumes/config/odoo.conf");
    var b3 := Step(b2, COPY_CONFIG);
    CopyStep(b3, COPY_EXTRA, "extra_addons", "/volumes/extra_addons");
    FiveSteps(b, "FROM configuration_layer", "USER ubuntu", "WORKDIR /volumes", COPY_CONFIG, COPY_EXTRA);
  }

  lemma FiveSteps(b: Build, v: string, w: string, x: string, y: string, z: string)
    ensures Steps(b, [v] + [w] + [x] + [y] + [z]) == Step(Step(Step(Step(Step(b, v), w), x), y), z)
  {
    hide Step;
    StepsInTwo(b, [v] + [w] + [x] + [y], [z]);
    StepsInTwo(b, [v] + [w] + [x], [y]);
    StepsInTwo(b, [v] + [w], [x]);
    StepsInTwo(b, [v], [w]);
    OneStep(b, v);
    OneStep(Step(b, v), w);
    OneStep(Step(Step(b, v), w), x);
    OneStep(Step(Step(Step(b, v), w), x), y);
    OneStep(Step(Step(Step(Step(b, v), w), x), y), z);
  }

  /** What the stages of the first sources deliver. */
  function Delivered(sources: seq<Source>): (r: seq<Delivery>)
    ensures |r| == |sources| && forall i :: 0 <= i < |r| ==> r[i] == FromStage(AddonsOf(sources[i]))
  {
    seq(|sources|, i requires 0 <= i < |sources| => FromStage(AddonsOf(sources[i])))
  }

  lemma {:induction false} CopiesBuilt(l: Letters, b: Build, sources: seq<Source>, n: nat)
    requires Sane(l) && n <= |sources| && b.current == "" && "" in b.stages
    requires forall i :: 0 <= i < |sources| ==>
               StageName(l, sources[i].repo, i) in b.stages && b.stages[StageName(l, sources[i].repo, i)] == Fetched(sources[i])
    ensures var s := b.stages[""];
            Steps(b, AllGlued(CopyInstructions(StageNames(l, sources)[..n])))
            == b.(stages := b.stages["" := s.(volumes := s.volumes + Delivered(sources[..n]))])
  {
    hide Words, Step, StageName, Sane, Glued, IsWord;
    var names := StageNames(l, sources);
    if n == 0 {
      assert CopyInstructions(names[..0]) == [];
      assert b.stages[""].volumes + [] == b.stages[""].volumes;
      assert b.stages["" := b.stages[""]] == b.stages;
    } else {
      CopiesBuilt(l, b, sources, n - 1);
      var stage := names[n - 1];
      var line := "COPY --from=" + stage + FROM_STAGE_TO_VOLUME;
      assert CopyInstructions(names[..n]) == CopyInstructions(names[..n - 1]) + [[line]];
      GluedConcat(CopyInstructions(names[..n - 1]), [[line]]);
      OneGlued([line]);
      assert Glued([line]) == line by { GluedOne(line); }
      StepsInTwo(b, AllGlued(CopyInstructions(names[..n - 1])), [line]);
      var b1 := Steps(b, AllGlued(CopyInstructions(names[..n - 1])));
      OneStep(b1, line);
      StageNameIsWord(l, sources[n - 1].repo, n - 1);
      NoBlank(stage);
      assert stage != "" by { StagesAreNamed(stage); }
      StageCopyStep(b1, stage);
      assert Delivered(sources[..n]) == Delivered(sources[..n - 1]) + [FromStage(AddonsOf(sources[n - 1]))];
      assert b.stages[""].volumes + Delivered(sources[..n - 1]) + [FromStage(AddonsOf(sources[n - 1]))]
             == b.stages[""].volumes + Delivered(sources[..n]);
    }
  }

  lemma GluedOne(line: string) ensures Glued([line]) == line {}

  lemma StagesAreNamed(stage: string)
    requires "addons_" <= stage
    ensures stage != ""
  {
  }

  // ---- the whole file ----

  function BaseOf(p: Pipeline): string {
    if p.baseImage != "" then p.baseImage else "ghcr.io/adomi-io/odoo:19.0"
  }

  lemma BaseIsPlain(p: Pipeline)
    requires Plain(p)
    ensures IsWord(BaseOf(p)) && !("addons_" <= BaseOf(p)) && OrElse(p.baseImage, DEFAULT_BASE_IMAGE) == BaseOf(p)
  {
    assert "ghcr.io/adomi-io/odoo:19.0"[0] == 'g' && "addons_"[0] == 'a';
  }

  /** The first part of the file leaves the sources' stages and the argument. */
  lemma FrontBuilt(l: Letters, p: Pipeline) returns (b: Build)
    requires Sane(l) && Plain(p)
    ensures b == Steps(NOTHING, AllGlued(Front(l, p)))
    ensures ARGUMENT in b.args && b.args[ARGUMENT] == BaseOf(p)
    ensures forall n :: n in b.stages ==> "addons_" <= n
    ensures forall i :: 0 <= i < |p.sources| ==>
              StageName(l, p.sources[i].repo, i) in b.stages && b.stages[StageName(l, p.sources[i].repo, i)] == Fetched(p.sources[i])
  {
    BaseIsPlain(p);
    hide Words, Step, StageName, Sane, IsWord, Fetched, PlainSource, BaseOf, OrElse, Glued;
    var arg := "ARG ODOO_BASE_IMAGE=" + OrElse(p.baseImage, DEFAULT_BASE_IMAGE);
    ArgStep(NOTHING, BaseOf(p));
    var b1 := Step(NOTHING, arg);
    var rest := if p.sources == [] then [] else ADDONS_BASE + AllSources(l, p.sources);
    GluedConcat([[arg]], rest);
    OneGlued([arg]);
    GluedOne(arg);
    StepsInTwo(NOTHING, [arg], AllGlued(rest));
    OneStep(NOTHING, arg);
    if p.sources == [] {
      b := b1;
      assert AllGlued(rest) == [];
    } else {
      GluedConcat(ADDONS_BASE, AllSources(l, p.sources));
      StepsInTwo(b1, AllGlued(ADDONS_BASE), AllGlued(AllSources(l, p.sources)));
      ToolboxBuilt(b1);
      var b2 := Steps(b1, AllGlued(ADDONS_BASE));
      SourcesBuilt(l, b2, p.sources);
      b := Steps(b2, AllGlued(AllSources(l, p.sources)));
      assert "addons_" <= "addons_base";
    }
  }

  lemma TwoParts(b: Build, x: seq<Instruction>, y: seq<Instruction>)
    ensures Steps(b, AllGlued(x + y)) == Steps(Steps(b, AllGlued(x)), AllGlued(y))
  {
    GluedConcat(x, y);
    hide AllGlued, Steps;
    StepsInTwo(b, AllGlued(x), AllGlued(y));
  }

  lemma PackagesBuilt(b: Build, apt: seq<string>, pip: seq<string>)
    requires AllWordy(apt) && AllWordy(pip) && b.current in b.stages
    requires b.stages[b.current].apt == [] && b.stages[b.current].pip == [] && b.stages[b.current].user == "root"
    ensures Steps(b, AllGlued(AptInstructions(apt) + PipInstructions(pip)))
            == Changed(b, b.stages[b.current].(apt := apt, pip := pip))
  {
    hide AllWordy, AllGlued, Steps, AptInstructions, PipInstructions;
    TwoParts(b, AptInstructions(apt), PipInstructions(pip));
    AptBuilt(b, apt);
    PipBuilt(Steps(b, AllGlued(AptInstructions(apt))), pip);
  }

  /** The layer with the packages. */
  lemma LayersBuilt(b: Build, p: Pipeline, base: string)
    requires AllWordy(p.apt) && AllWordy(p.pip) && ARGUMENT in b.args && b.args[ARGUMENT] == base && base !in b.stages
    ensures Steps(b, AllGlued(CONFIGURATION + (AptInstructions(p.apt) + PipInstructions(p.pip))))
            == b.(current := "configuration_layer",
                  stages := b.stages["configuration_layer" := Layer(base).(apt := p.apt, pip := p.pip)])
  {
    hide AllWordy, AllGlued, Steps, AptInstructions, PipInstructions;
    ConfigurationBuilt(b);
    TwoParts(b, CONFIGURATION, AptInstructions(p.apt) + PipInstructions(p.pip));
    PackagesBuilt(Steps(b, AllGlued(CONFIGURATION)), p.apt, p.pip);
  }

  /** The last stage. */
  lemma BackBuilt(l: Letters, b: Build, p: Pipeline, layer: Stage)
    requires Sane(l) && "configuration_layer" in b.stages && b.stages["configuration_layer"] == layer && layer.volumes == []
    requires forall i :: 0 <= i < |p.sources| ==>
               StageName(l, p.sources[i].repo, i) in b.stages && b.stages[StageName(l, p.sources[i].repo, i)] == Fetched(p.sources[i])
    ensures var b' := Steps(b, AllGlued(FINAL + CopyInstructions(StageNames(l, p.sources)) + [[COPY_ADDONS]]));
            "" in b'.stages && b'.stages[""] == layer.(user := "ubuntu", volumes := Volumes(p.sources))
  {
    hide Words, Step, StageName, Sane, Glued, IsWord, Fetched;
    var copies := CopyInstructions(StageNames(l, p.sources));
    GluedConcat(FINAL + copies, [[COPY_ADDONS]]);
    GluedConcat(FINAL, copies);
    OneGlued([COPY_ADDONS]);
    GluedOne(COPY_ADDONS);
    var f, c := AllGlued(FINAL), AllGlued(copies);
    hide AllGlued;
    StepsInTwo(b, f + c, [COPY_ADDONS]);
    StepsInTwo(b, f, c);
    FinalBuilt(b);
    var b1 := Steps(b, f);
    forall i | 0 <= i < |p.sources| ensures StageName(l, p.sources[i].repo, i) != "" {
      StageNameIsWord(l, p.sources[i].repo, i);
      StagesAreNamed(StageName(l, p.sources[i].repo, i));
    }
    assert StageNames(l, p.sources)[..|p.sources|] == StageNames(l, p.sources);
    CopiesBuilt(l, b1, p.sources, |p.sources|);
    assert p.sources[..|p.sources|] == p.sources;
    LastWords();
    OneStep(Steps(b1, c), COPY_ADDONS);
    CopyStep(Steps(b1, c), COPY_ADDONS, "addons", "/volumes/addons");
    assert [] + [FromContext("config/odoo.conf", "/volumes/config/odoo.conf")] + [FromContext("extra_addons", "/volumes/extra_addons")]
           + Delivered(p.sources) + [FromContext("addons", "/volumes/addons")] == Volumes(p.sources);
  }

  /** What the pipeline's image is to be: the base image with the packages in order, run as `ubuntu`, and in its volumes the
      configuration, the repository's own addons, and of every source exactly the modules that were named, at its branch, or
      all of them when none was. */
  function Wanted(p: Pipeline): Stage {
    Stage(BaseOf(p), "ubuntu", {}, {}, None, [], p.apt, p.pip, Volumes(p.sources))
  }

  /** The three parts of the file, given by what they leave. */
  lemma PartsBuilt(p: Pipeline, front: seq<Instruction>, middle: seq<Instruction>, back: seq<Instruction>, b: Build, c: Build)
    requires b == Steps(NOTHING, AllGlued(front)) && c == Steps(b, AllGlued(middle))
    requires var built := Steps(c, AllGlued(back)); "" in built.stages && built.stages[""] == Wanted(p)
    ensures var built := Steps(NOTHING, AllGlued(front + middle + back)); "" in built.stages && built.stages[""] == Wanted(p)
  {
    hide Steps, AllGlued, Wanted;
    TwoParts(NOTHING, front + middle, back);
    TwoParts(NOTHING, front, middle);
  }

  lemma AskedIsBuilt(l: Letters, p: Pipeline)
    requires Sane(l) && Plain(p)
    ensures var b := Steps(NOTHING, AllGlued(Asked(l, p))); "" in b.stages && b.stages[""] == Wanted(p)
  {
    hide StageName, Sane, IsWord, Fetched, AllGlued, Asked, BaseOf, Steps, Volumes, OrElse, AllSources, AptInstructions,
      PipInstructions, CopyInstructions, StageNames, AllWordy, PlainSource;
    var front := Front(l, p);
    var middle := CONFIGURATION + (AptInstructions(p.apt) + PipInstructions(p.pip));
    var back := FINAL + CopyInstructions(StageNames(l, p.sources)) + [[COPY_ADDONS]];
    AskedInThree(l, p);
    hide Front;
    var b := FrontBuilt(l, p);
    BaseIsPlain(p);
    LayersBuilt(b, p, BaseOf(p));
    hide Plain;
    var c := Steps(b, AllGlued(middle));
    LayerKeepsSources(l, b, p.sources, c);
    BackBuilt(l, c, p, Layer(BaseOf(p)).(apt := p.apt, pip := p.pip));
    PartsBuilt(p, front, middle, back, b, c);
  }

  lemma LayerKeepsSources(l: Letters, b: Build, sources: seq<Source>, c: Build)
    requires c.stages - {"configuration_layer"} == b.stages - {"configuration_layer"}
    requires forall i :: 0 <= i < |sources| ==>
               StageName(l, sources[i].repo, i) in b.stages && b.stages[StageName(l, sources[i].repo, i)] == Fetched(sources[i])
    ensures forall i :: 0 <= i < |sources| ==>
              StageName(l, sources[i].repo, i) in c.stages && c.stages[StageName(l, sources[i].repo, i)] == Fetched(sources[i])
  {
    hide StageName, Fetched;
    var x, y := b.stages - {"configuration_layer"}, c.stages - {"configuration_layer"};
    forall i | 0 <= i < |sources|
      ensures StageName(l, sources[i].repo, i) in c.stages && c.stages[StageName(l, sources[i].repo, i)] == Fetched(sources[i])
    {
      StageNamesDiffer(l, sources[i].repo, i, "", i + 1);
      var n := StageName(l, sources[i].repo, i);
      assert n in x && x[n] == b.stages[n];
      assert n in y && y[n] == c.stages[n];
    }
  }

  /** The first part of the file: the argument and the stages of the sources. */
  function Front(l: Letters, p: Pipeline): seq<Instruction> {
    [["ARG ODOO_BASE_IMAGE=" + OrElse(p.baseImage, DEFAULT_BASE_IMAGE)]]
    + if p.sources == [] then [] else ADDONS_BASE + AllSources(l, p.sources)
  }

  lemma InThree(a: seq<Instruction>, b: seq<Instruction>, c: seq<Instruction>, d: seq<Instruction>, e: seq<Instruction>,
                f: seq<Instruction>, g: seq<Instruction>, h: seq<Instruction>)
    ensures a + b + c + d + e + f + g + h == (a + b) + (c + (d + e)) + (f + g + h)
  {
  }

  lemma AskedInThree(l: Letters, p: Pipeline)
    ensures Asked(l, p)
            == Front(l, p) + (CONFIGURATION + (AptInstructions(p.apt) + PipInstructions(p.pip)))
               + (FINAL + CopyInstructions(StageNames(l, p.sources)) + [[COPY_ADDONS]])
  {
    hide OrElse, AllSources, AptInstructions, PipInstructions, CopyInstructions, StageNames;
    InThree([["ARG ODOO_BASE_IMAGE=" + OrElse(p.baseImage, DEFAULT_BASE_IMAGE)]],
            if p.sources == [] then [] else ADDONS_BASE + AllSources(l, p.sources),
            CONFIGURATION, AptInstructions(p.apt), PipInstructions(p.pip), FINAL, CopyInstructions(StageNames(l, p.sources)),
            [[COPY_ADDONS]]);
  }

  /** The rendered text, read as a Dockerfile and built: the image is the one that the pipeline wants. */
  lemma TextBuildsImage(l: Letters, p: Pipeline)
    requires Sane(l) && OneLined(p) && Faithful(p) && Plain(p)
    ensures var b := Steps(NOTHING, Read(Split(Join([HEADER] + Body(l, p))))); "" in b.stages && b.stages[""] == Wanted(p)
  {
    hide *;
    DockerfileSaysWhatWasAsked(l, p);
    AskedIsBuilt(l, p);
  }

  /** After a commit of the tab, the repository's `Dockerfile` builds the tab's image, and its manifest is the tab's
      pipeline. */
  lemma CommitBuildsImage(files: map<string, string>, y: PipelineManifest.Yaml, l: Letters, t: PipelineManifest.Tab)
    requires PipelineManifest.Lossless(y)
    requires var p := PipelineManifest.Data(t); Sane(l) && OneLined(p) && Faithful(p) && Plain(p)
    ensures var after, p := PipelineManifest.Committed(files, y, l, PipelineManifest.Data(t)), PipelineManifest.Data(t);
            && "Dockerfile" in after && "adomi-pipeline.yaml" in after
            && (forall path :: path !in {"Dockerfile", "adomi-pipeline.yaml"} ==>
                  (path in after <==> path in files) && (path in files ==> after[path] == files[path]))
            && (var b := Steps(NOTHING, Read(Split(after["Dockerfile"]))); "" in b.stages && b.stages[""] == Wanted(p))
            && PipelineManifest.ParseManifest(y, after["adomi-pipeline.yaml"]) == PipelineManifest.Normalized(p)
  {
    hide Steps, Read, Split, Join, Body, Wanted, Sane, OneLined, Faithful, Plain, PipelineManifest.Lossless, PipelineManifest.Data,
      PipelineManifest.RenderManifest, PipelineManifest.ParseManifest, PipelineManifest.Normalized;
    assert "Dockerfile" != "adomi-pipeline.yaml" by { assert |"Dockerfile"| != |"adomi-pipeline.yaml"|; }
    TextBuildsImage(l, PipelineManifest.Data(t));
    PipelineManifest.ParseRendered(y, PipelineManifest.Data(t));
  }
}
