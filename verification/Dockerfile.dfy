/** The Dockerfile printer, which builds its lines and edits the last one in place, and a reader of Dockerfiles, which puts
    lines together again at their continuations. */
module Dockerfile {
  import opened Text

  // ---- the pipeline, and the instructions it asks for ----

  datatype Source = Source(repo: string, branch: string, modules: seq<string>)

  datatype Pipeline = Pipeline(baseImage: string, apt: seq<string>, pip: seq<string>, sources: seq<Source>)

  const DEFAULT_BASE_IMAGE: string := "ghcr.io/adomi-io/odoo:19.0"

  const SLASH: set<char> := {'/'}
  const UNDERSCORE: set<char> := {'_'}
  const CONTINUATION: set<char> := {' ', '\\'}

  /** Python's `str.lower` and `str.isalnum`. */
  datatype Letters = Letters(lower: string -> string, alnum: char -> bool)

  /** All that is used of them: letters and digits are no spaces and no backslashes. */
  ghost predicate Sane(l: Letters) {
    forall c :: l.alnum(c) ==> !IsSpace(c) && c != '\\'
  }

  /** `url.rsplit("/", 1)[-1]` */
  function Tail(url: string): string {
    if url == "" || url[|url| - 1] == '/' then "" else Tail(url[..|url| - 1]) + [url[|url| - 1]]
  }

  function WithoutGit(tail: string): string {
    if |tail| >= 4 && tail[|tail| - 4..] == ".git" then tail[..|tail| - 4] else tail
  }

  function Underscored(l: Letters, s: string): (r: string)
    ensures |r| == |s| && forall i :: 0 <= i < |s| ==> r[i] == if l.alnum(s[i]) then s[i] else '_'
  {
    seq(|s|, i requires 0 <= i < |s| => if l.alnum(s[i]) then s[i] else '_')
  }

  function StageSlug(l: Letters, repo: string): string {
    var slug := Strip(Underscored(l, l.lower(WithoutGit(Tail(RStrip(repo, SLASH))))), UNDERSCORE);
    if slug == "" then "src" else slug
  }

  function StageName(l: Letters, repo: string, index: nat): string {
    "addons_" + Decimal(index) + "_" + StageSlug(l, repo)
  }

  function OrElse(s: string, default: string): string {
    if s == "" then default else s
  }

  /** An instruction, as the pieces that the printer puts on lines of their own. */
  type Instruction = seq<string>

  /** Each item on its own, between two fixed texts. */
  function Each(items: seq<string>, before: string, after: string): (r: seq<string>)
    ensures |r| == |items| && forall i :: 0 <= i < |r| ==> r[i] == before + items[i] + after
  {
    seq(|items|, i requires 0 <= i < |items| => before + items[i] + after)
  }

  // The verifier computes with literals of up to some thirty characters. Longer fixed lines are therefore put together
  // from parts, here and in the header, and what is needed of them is proved part by part.
  const TAKE_ALL: string :=
    "    " + ("&& for m in /tmp/src/*/" + "__manifest__.py; do cp -a" + " \"$(dirname \"$m\")\"" + " /tmp/extra_addons/; done")
  const FROM_BASE: string := "FROM ${ODOO_BASE_IMAGE}" + " AS configuration_layer"
  const COPY_CONFIG: string := "COPY config/odoo.conf" + " /volumes/config/odoo.conf"
  const COPY_EXTRA: string := "COPY extra_addons" + " /volumes/extra_addons"
  const COPY_ADDONS: string := "COPY addons" + " /volumes/addons"
  const FROM_STAGE_TO_VOLUME: string := " /tmp/extra_addons/" + " /volumes/extra_addons/"
  const APT_INSTALL: string := "    " + ("&& apt-get install -y" + " --no-install-recommends")
  const MODULE_BEFORE: string := "    " + "&& cp -a /tmp/src/"
  const MODULE_AFTER: string := " /tmp/extra_addons/"
  const APT_CLEAN: string := "    " + "&& rm -rf /var/lib/apt/lists/*"

  function CloneCommand(s: Source): string {
    "RUN git clone --depth 1 " + (if s.branch != "" then "--branch " + s.branch + " " else "") + s.repo + " /tmp/src"
  }

  /** The instructions that fetch one source: a stage of its own, a clone, and a copy of each module or of all. */
  function SourceInstructions(s: Source, stage: string): seq<Instruction> {
    [["FROM addons_base AS " + stage],
     [CloneCommand(s)] + if s.modules == [] then [TAKE_ALL] else Each(s.modules, MODULE_BEFORE, MODULE_AFTER)]
  }

  function StageNames(l: Letters, sources: seq<Source>): (r: seq<string>)
    ensures |r| == |sources| && forall i :: 0 <= i < |r| ==> r[i] == StageName(l, sources[i].repo, i)
  {
    seq(|sources|, i requires 0 <= i < |sources| => StageName(l, sources[i].repo, i))
  }

  function AllSources(l: Letters, sources: seq<Source>): seq<Instruction> {
    if sources == [] then []
    else
      var n := |sources| - 1;
      AllSources(l, sources[..n]) + SourceInstructions(sources[n], StageName(l, sources[n].repo, n))
  }

  const ADDONS_BASE: seq<Instruction> :=
    [["FROM alpine:3.20 AS addons_base"], ["RUN apk add --no-cache git", "    " + "&& mkdir -p /tmp/extra_addons"]]

  const CONFIGURATION: seq<Instruction> := [[FROM_BASE], ["USER root"]]

  const FINAL: seq<Instruction> :=
    [["FROM configuration_layer"], ["USER ubuntu"], ["WORKDIR /volumes"],
     [COPY_CONFIG], [COPY_EXTRA]]

  function AptInstructions(apt: seq<string>): seq<Instruction> {
    if apt == [] then []
    else [["RUN apt-get update", APT_INSTALL] + Each(apt, "        ", "")
          + [APT_CLEAN]]
  }

  function PipInstructions(pip: seq<string>): seq<Instruction> {
    if pip == [] then [] else [["RUN pip install"] + Each(pip, "        ", "")]
  }

  function CopyInstructions(stages: seq<string>): (r: seq<Instruction>)
    ensures |r| == |stages| && forall i :: 0 <= i < |r| ==> r[i] == ["COPY --from=" + stages[i] + FROM_STAGE_TO_VOLUME]
  {
    seq(|stages|, i requires 0 <= i < |stages| => ["COPY --from=" + stages[i] + FROM_STAGE_TO_VOLUME])
  }

  /** What the pipeline asks for. */
  function Asked(l: Letters, p: Pipeline): seq<Instruction> {
    [["ARG ODOO_BASE_IMAGE=" + OrElse(p.baseImage, DEFAULT_BASE_IMAGE)]]
    + (if p.sources == [] then [] else ADDONS_BASE + AllSources(l, p.sources))
    + CONFIGURATION + AptInstructions(p.apt) + PipInstructions(p.pip)
    + FINAL + CopyInstructions(StageNames(l, p.sources)) + [[COPY_ADDONS]]
  }

  // ---- reading a Dockerfile ----

  const BLANKS: set<char> := {' ', '\t'}

  /** A single backslash, with blanks after it at most, continues the line. */
  predicate IsContinued(line: string) {
    var t := RStrip(line, BLANKS);
    t != "" && t[|t| - 1] == '\\' && (|t| == 1 || t[|t| - 2] != '\\')
  }

  /** The line without its continuation. */
  function Part(line: string): string
    requires IsContinued(line)
  {
    var t := RStrip(line, BLANKS);
    t[..|t| - 1]
  }

  predicate IsComment(line: string) {
    var t := LStrip(line, WHITESPACE);
    t != "" && t[0] == '#'
  }

  predicate IsBlank(line: string) {
    LStrip(line, WHITESPACE) == ""
  }

  /** The rest of a continued instruction, and how many lines it takes. Comments and blank lines in between are skipped. */
  function Rest(lines: seq<string>): (string, nat)
    ensures Rest(lines).1 <= |lines|
  {
    if lines == [] then ("", 0)
    else if IsComment(lines[0]) || IsBlank(lines[0]) then
      var (text, n) := Rest(lines[1..]);
      (text, n + 1)
    else if IsContinued(lines[0]) then
      var (text, n) := Rest(lines[1..]);
      (Part(lines[0]) + text, n + 1)
    else (lines[0], 1)
  }

  /** The instructions of a Dockerfile, each on one line. */
  function Read(lines: seq<string>): seq<string>
    decreases |lines|
  {
    if |lines| == 0 then []
    else if IsComment(lines[0]) || IsBlank(lines[0]) then Read(lines[1..])
    else
      var first := LStrip(lines[0], WHITESPACE);
      if IsContinued(first) then
        var (text, n) := Rest(lines[1..]);
        [Part(first) + text] + Read(lines[1 + n..])
      else [first] + Read(lines[1..])
  }

  /** An instruction on one line: its pieces with a blank between them. */
  function Glued(pieces: Instruction): string {
    if pieces == [] then "" else if |pieces| == 1 then pieces[0] else pieces[0] + " " + Glued(pieces[1..])
  }

  function AllGlued(instructions: seq<Instruction>): seq<string> {
    if instructions == [] then [] else [Glued(instructions[0])] + AllGlued(instructions[1..])
  }

  // ---- reading what was continued ----

  /** A line that ends an instruction. */
  predicate Closes(s: string) {
    !IsBlank(s) && !IsContinued(s)
  }

  /** The pieces can be told apart from comments, the first starts the instruction and the last ends it. */
  predicate IsInstruction(pieces: Instruction) {
    && pieces != [] && OneLines(pieces) && (forall i :: 0 <= i < |pieces| ==> !IsComment(pieces[i]))
    && pieces[0] != "" && !IsSpace(pieces[0][0]) && Closes(pieces[|pieces| - 1])
  }

  /** The lines of an instruction: every piece but the last is continued. */
  function Printed(pieces: Instruction): seq<string> {
    if |pieces| <= 1 then pieces else [pieces[0] + " \\"] + Printed(pieces[1..])
  }

  /** A continued line goes on, and is a comment only if what is continued is one. */
  lemma ContinuedPiece(s: string)
    ensures IsContinued(s + " \\") && Part(s + " \\") == s + " "
    ensures !IsBlank(s + " \\") && (IsComment(s + " \\") <==> IsComment(s))
    ensures LStrip(s, WHITESPACE) != "" ==> LStrip(s + " \\", WHITESPACE) == LStrip(s, WHITESPACE) + " \\"
  {
    var t := s + " \\";
    assert RStrip(t, BLANKS) == t;
    assert t[|t| - 2] == ' ' && t[..|t| - 1] == s + " ";
    if LStrip(s, WHITESPACE) != "" {
      LStripAppend(s, " \\");
    } else {
      LStripSkip(s, " \\");
      assert LStrip(" \\", WHITESPACE) == "\\" by { assert " \\"[1..] == "\\"; }
    }
  }

  lemma {:induction false} LStripAppend(s: string, tail: string)
    requires LStrip(s, WHITESPACE) != ""
    ensures LStrip(s + tail, WHITESPACE) == LStrip(s, WHITESPACE) + tail
  {
    if s[0] in WHITESPACE {
      assert (s + tail)[1..] == s[1..] + tail;
      LStripAppend(s[1..], tail);
    }
  }

  lemma {:induction false} LStripSkip(spaces: string, s: string)
    requires forall i :: 0 <= i < |spaces| ==> IsSpace(spaces[i])
    ensures LStrip(spaces + s, WHITESPACE) == LStrip(s, WHITESPACE)
  {
    if spaces == "" {
      assert spaces + s == s;
    } else {
      assert (spaces + s)[1..] == spaces[1..] + s;
      LStripSkip(spaces[1..], s);
    }
  }

  /** Reading these lines, whatever comes after them, yields these instructions; and no line breaks off. */
  ghost predicate Reads(lines: seq<string>, instructions: seq<Instruction>) {
    && OneLines(lines)
    && forall rest :: ReadsBefore(lines, instructions, rest)
  }

  predicate ReadsBefore(lines: seq<string>, instructions: seq<Instruction>, rest: seq<string>) {
    Read(lines + rest) == AllGlued(instructions) + Read(rest)
  }

  lemma {:induction false} AllGluedConcat(a: seq<Instruction>, b: seq<Instruction>)
    ensures AllGlued(a + b) == AllGlued(a) + AllGlued(b)
    decreases |a|
  {
    if a == [] {
      assert a + b == b;
    } else {
      assert (a + b)[1..] == a[1..] + b;
      AllGluedConcat(a[1..], b);
    }
  }

  lemma ReadsConcat(x: seq<string>, a: seq<Instruction>, y: seq<string>, b: seq<Instruction>)
    requires Reads(x, a) && Reads(y, b)
    ensures Reads(x + y, a + b)
  {
    hide Read, AllGlued;
    forall rest ensures ReadsBefore(x + y, a + b, rest) {
      assert x + y + rest == x + (y + rest);
      assert ReadsBefore(x, a, y + rest) && ReadsBefore(y, b, rest);
      AllGluedConcat(a, b);
      assert AllGlued(a) + (AllGlued(b) + Read(rest)) == AllGlued(a) + AllGlued(b) + Read(rest);
    }
  }

  lemma ReadsNothing()
    ensures Reads([], []) && Reads([""], [])
  {
    forall rest: seq<string> ensures ReadsBefore([], [], rest) && ReadsBefore([""], [], rest) {
      assert [] + rest == rest && ([""] + rest)[1..] == rest;
    }
  }

  /** What follows the first piece of an instruction. */
  lemma {:induction false} RestOfPrinted(pieces: Instruction, rest: seq<string>)
    requires pieces != [] && (forall i :: 0 <= i < |pieces| ==> !IsComment(pieces[i])) && Closes(pieces[|pieces| - 1])
    ensures Rest(Printed(pieces) + rest) == (Glued(pieces), |pieces|) && |Printed(pieces)| == |pieces|
    decreases |pieces|
  {
    hide IsContinued, IsBlank, IsComment, Part;
    var all := Printed(pieces) + rest;
    if |pieces| == 1 {
      assert all[0] == pieces[0];
    } else {
      RestOfPrinted(pieces[1..], rest);
      assert all[0] == pieces[0] + " \\" && all[1..] == Printed(pieces[1..]) + rest;
      ContinuedPiece(pieces[0]);
    }
  }

  lemma ReadsOnePiece(piece: string, rest: seq<string>)
    requires IsInstruction([piece])
    ensures Read([piece] + rest) == [piece] + Read(rest)
  {
    assert !IsComment([piece][0]) && [piece][0] == piece;
    assert ([piece] + rest)[1..] == rest;
    assert LStrip(piece, WHITESPACE) == piece;
    hide IsContinued;
  }

  lemma ReadsPieces(pieces: Instruction, rest: seq<string>)
    requires IsInstruction(pieces) && |pieces| > 1
    ensures Read(Printed(pieces) + rest) == [Glued(pieces)] + Read(rest)
  {
    var all := Printed(pieces) + rest;
    RestOfPrinted(pieces[1..], rest);
    assert all[0] == pieces[0] + " \\" && all[1..] == Printed(pieces[1..]) + rest;
    ContinuedPiece(pieces[0]);
    assert LStrip(pieces[0], WHITESPACE) == pieces[0];
    assert all[|pieces|..] == rest;
    hide IsContinued, Printed, Rest, Part, IsComment, IsBlank;
  }

  lemma ReadsInstruction(pieces: Instruction)
    requires IsInstruction(pieces)
    ensures Reads(Printed(pieces), [pieces])
  {
    hide Read;
    PrintedLines(pieces);
    forall rest ensures ReadsBefore(Printed(pieces), [pieces], rest) {
      assert AllGlued([pieces]) == [Glued(pieces)] + AllGlued([]) && AllGlued([]) == [];
      if |pieces| == 1 {
        assert pieces == [pieces[0]];
        ReadsOnePiece(pieces[0], rest);
      } else {
        ReadsPieces(pieces, rest);
      }
    }
  }

  lemma {:induction false} PrintedLines(pieces: Instruction)
    requires forall i :: 0 <= i < |pieces| ==> '\n' !in pieces[i]
    ensures |Printed(pieces)| == |pieces| && forall i :: 0 <= i < |pieces| ==> '\n' !in Printed(pieces)[i]
    decreases |pieces|
  {
    if |pieces| > 1 { PrintedLines(pieces[1..]); }
  }

  // ---- the printer ----

  const HEADER_1: string := "# Generated by the Adomi" + " platform from" + " adomi-pipeline.yaml."
  const HEADER_2: string := "# Do not edit by hand:" + " change adomi-pipeline.yaml" + " (or the Pipeline tab in the"
  const HEADER_3: string := "# portal) and this file is" + " regenerated on the" + " next commit."
  const HEADER: string := HEADER_1 + "\n" + HEADER_2 + "\n" + HEADER_3 + "\n"

  /** `lines[-1] = lines[-1].rstrip(" \\")` */
  function LastStripped(lines: seq<string>): seq<string>
    requires lines != []
  {
    lines[..|lines| - 1] + [RStrip(lines[|lines| - 1], CONTINUATION)]
  }

  function SourceLines(s: Source, stage: string): seq<string> {
    ["FROM addons_base AS " + stage, "", CloneCommand(s) + " \\"]
    + (if s.modules == [] then [TAKE_ALL]
       else LastStripped(Each(s.modules, MODULE_BEFORE, MODULE_AFTER + " \\")))
    + [""]
  }

  function AllSourceLines(l: Letters, sources: seq<Source>): seq<string> {
    if sources == [] then []
    else
      var n := |sources| - 1;
      AllSourceLines(l, sources[..n]) + SourceLines(sources[n], StageName(l, sources[n].repo, n))
  }

  const ADDONS_BASE_LINES: seq<string> :=
    ["FROM alpine:3.20 AS addons_base", "", "RUN apk add --no-cache git" + " \\", "    " + "&& mkdir -p /tmp/extra_addons", ""]

  const CONFIGURATION_LINES: seq<string> := [FROM_BASE, "", "USER root", ""]

  const FINAL_LINES: seq<string> :=
    ["FROM configuration_layer", "", "USER ubuntu", "", "WORKDIR /volumes", "",
     COPY_CONFIG, "", COPY_EXTRA]

  function AptLines(apt: seq<string>): seq<string> {
    if apt == [] then []
    else ["RUN apt-get update" + " \\", APT_INSTALL + " \\"] + Each(apt, "        ", " \\")
         + [APT_CLEAN, ""]
  }

  function PipLines(pip: seq<string>): seq<string> {
    if pip == [] then [] else LastStripped(["RUN pip install" + " \\"] + Each(pip, "        ", " \\")) + [""]
  }

  function CopyLines(stages: seq<string>): seq<string> {
    Each(stages, "COPY --from=", FROM_STAGE_TO_VOLUME)
  }

  function SourcesPart(l: Letters, sources: seq<Source>): seq<string> {
    if sources == [] then [] else ADDONS_BASE_LINES + AllSourceLines(l, sources)
  }

  /** The buffer's lines after the header. */
  function Body(l: Letters, p: Pipeline): seq<string> {
    ["ARG ODOO_BASE_IMAGE=" + OrElse(p.baseImage, DEFAULT_BASE_IMAGE), ""]
    + SourcesPart(l, p.sources) + CONFIGURATION_LINES + AptLines(p.apt) + PipLines(p.pip)
    + FINAL_LINES + CopyLines(StageNames(l, p.sources)) + ["", COPY_ADDONS, ""]
  }

  /** One source's stage goes into the buffer; after a list of modules the last line loses its continuation. */
  method AppendSource(lines: seq<string>, source: Source, stage: string) returns (buffer: seq<string>)
    ensures buffer == lines + SourceLines(source, stage)
  {
    hide CloneCommand, Each;
    buffer := lines + ["FROM addons_base AS " + stage, "", CloneCommand(source) + " \\"];
    if source.modules != [] {
      ghost var here := buffer;
      NoneEach(MODULE_BEFORE, MODULE_AFTER + " \\");
      for k := 0 to |source.modules|
        invariant buffer == here + Each(source.modules[..k], MODULE_BEFORE, MODULE_AFTER + " \\")
      {
        EachSnoc(source.modules[..k], source.modules[k], MODULE_BEFORE, MODULE_AFTER + " \\");
        assert source.modules[..k + 1] == source.modules[..k] + [source.modules[k]];
        buffer := buffer + [MODULE_BEFORE + source.modules[k] + (MODULE_AFTER + " \\")];
      }
      assert source.modules[..|source.modules|] == source.modules;
      buffer := buffer[|buffer| - 1 := RStrip(buffer[|buffer| - 1], CONTINUATION)];
      assert buffer == here + LastStripped(Each(source.modules, MODULE_BEFORE, MODULE_AFTER + " \\"));
    } else {
      buffer := buffer + [TAKE_ALL];
    }
    buffer := buffer + [""];
    assert buffer == lines + SourceLines(source, stage);
  }

  method AppendApt(lines: seq<string>, apt: seq<string>) returns (buffer: seq<string>)
    ensures buffer == lines + AptLines(apt)
  {
    hide Each;
    buffer := lines;
    if apt != [] {
      buffer := buffer + ["RUN apt-get update" + " \\", APT_INSTALL + " \\"];
      buffer := buffer + Each(apt, "        ", " \\");
      buffer := buffer + [APT_CLEAN, ""];
    }
  }

  method AppendPip(lines: seq<string>, pip: seq<string>) returns (buffer: seq<string>)
    ensures buffer == lines + PipLines(pip)
  {
    hide Each;
    buffer := lines;
    if pip != [] {
      buffer := buffer + ["RUN pip install" + " \\"];
      buffer := buffer + Each(pip, "        ", " \\");
      buffer := buffer[|buffer| - 1 := RStrip(buffer[|buffer| - 1], CONTINUATION)];
      assert buffer == lines + LastStripped(["RUN pip install" + " \\"] + Each(pip, "        ", " \\"));
      buffer := buffer + [""];
    }
  }

  /** The shared base stage and a stage for every source. */
  method AppendSources(l: Letters, lines: seq<string>, sources: seq<Source>) returns (buffer: seq<string>, stages: seq<string>)
    ensures buffer == lines + SourcesPart(l, sources) && stages == StageNames(l, sources)
  {
    hide StageName, StageNames, SourceLines;
    buffer, stages := lines, [];
    NoStages(l);
    if sources != [] {
      buffer := buffer + ADDONS_BASE_LINES;
      for index := 0 to |sources|
        invariant buffer == lines + ADDONS_BASE_LINES + AllSourceLines(l, sources[..index])
        invariant stages == StageNames(l, sources[..index])
      {
        var stage := StageName(l, sources[index].repo, index);
        StageNamesSnoc(l, sources, index);
        assert sources[..index + 1][..index] == sources[..index];
        stages := stages + [stage];
        buffer := AppendSource(buffer, sources[index], stage);
      }
      assert sources[..|sources|] == sources;
    }
  }

  /** The final image takes what each stage has fetched. */
  method AppendCopies(lines: seq<string>, stages: seq<string>) returns (buffer: seq<string>)
    ensures buffer == lines + CopyLines(stages)
  {
    hide Each;
    buffer := lines;
    NoneEach("COPY --from=", FROM_STAGE_TO_VOLUME);
    for i := 0 to |stages|
      invariant buffer == lines + Each(stages[..i], "COPY --from=", FROM_STAGE_TO_VOLUME)
    {
      EachSnoc(stages[..i], stages[i], "COPY --from=", FROM_STAGE_TO_VOLUME);
      assert stages[..i + 1] == stages[..i] + [stages[i]];
      buffer := buffer + ["COPY --from=" + stages[i] + FROM_STAGE_TO_VOLUME];
    }
    assert stages[..|stages|] == stages;
  }

  /** `render_dockerfile`: a line buffer that is appended to, and whose last line is edited in place. */
  method RenderDockerfile(l: Letters, p: Pipeline) returns (text: string)
    ensures text == Join([HEADER] + Body(l, p))
  {
    hide StageNames, SourcesPart, AptLines, PipLines, CopyLines, Join;
    var lines := [HEADER];
    var stages: seq<string>;
    lines := lines + ["ARG ODOO_BASE_IMAGE=" + OrElse(p.baseImage, DEFAULT_BASE_IMAGE)];
    lines := lines + [""];
    lines, stages := AppendSources(l, lines, p.sources);
    lines := lines + CONFIGURATION_LINES;
    lines := AppendApt(lines, p.apt);
    lines := AppendPip(lines, p.pip);
    lines := lines + FINAL_LINES;
    lines := AppendCopies(lines, stages);
    lines := lines + ["", COPY_ADDONS, ""];
    assert lines == [HEADER] + Body(l, p);
    text := Join(lines);
  }

  lemma NoneEach(before: string, after: string)
    ensures Each([], before, after) == []
  {
  }

  lemma NoStages(l: Letters)
    ensures StageNames(l, []) == []
  {
  }

  lemma EachSnoc(items: seq<string>, item: string, before: string, after: string)
    ensures Each(items + [item], before, after) == Each(items, before, after) + [before + item + after]
  {
  }

  lemma StageNamesSnoc(l: Letters, sources: seq<Source>, n: nat)
    requires n < |sources|
    ensures StageNames(l, sources[..n + 1]) == StageNames(l, sources[..n]) + [StageName(l, sources[n].repo, n)]
  {
    hide StageName;
  }
}
