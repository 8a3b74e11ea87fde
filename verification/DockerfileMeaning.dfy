/** The text that is printed, read back line by line, says exactly what the pipeline asked for. */
module DockerfileMeaning {
  import opened Text
  import opened Dockerfile

  /** A line that can be any piece of an instruction. */
  predicate IsPiece(s: string) {
    !IsComment(s) && Closes(s) && '\n' !in s
  }

  /** How a line begins that is neither blank nor a comment, and how one ends that is not continued. */
  predicate Begins(s: string) {
    s != "" && !IsSpace(s[0]) && s[0] != '#'
  }

  predicate Ends(s: string) {
    s != "" && s[|s| - 1] !in {' ', '\t', '\\'}
  }

  /** The printer takes nothing off its end. */
  predicate Ended(s: string) {
    s != "" && s[|s| - 1] !in CONTINUATION
  }

  predicate Word(s: string) {
    Begins(s) && Ends(s) && OneLine(s)
  }

  lemma Together(a: string, b: string)
    ensures OneLine(a) && OneLine(b) ==> OneLine(a + b)
    ensures Begins(a) ==> Begins(a + b)
    ensures Ends(b) ==> Ends(a + b)
  {
  }

  lemma EndsHere(s: string)
    requires Ends(s)
    ensures !IsContinued(s)
  {
    assert RStrip(s, BLANKS) == s;
  }

  lemma WordReads(s: string)
    requires Word(s)
    ensures IsInstruction([s]) && Reads([s], [[s]]) && Reads([s, ""], [[s]])
  {
    EndsHere(s);
    LineReads(s);
  }

  /** A line that begins an instruction and does not continue it. */
  lemma LineReads(s: string)
    requires Begins(s) && OneLine(s) && !IsContinued(s)
    ensures IsInstruction([s]) && Reads([s], [[s]]) && Reads([s, ""], [[s]])
  {
    assert LStrip(s, WHITESPACE) == s;
    hide Reads, IsContinued;
    ReadsInstruction([s]);
    assert Printed([s]) == [s];
    ReadsNothing();
    ReadsConcat([s], [[s]], [""], []);
    assert [s] + [""] == [s, ""] && [[s]] + [] == [[s]];
  }

  lemma WordIndented(spaces: string, s: string)
    requires (forall i :: 0 <= i < |spaces| ==> spaces[i] == ' ') && Word(s)
    ensures IsPiece(spaces + s)
  {
    LStripSkip(spaces, s);
    Together(spaces, s);
    EndsHere(spaces + s);
    hide IsContinued;
  }

  /** A first piece, and more pieces after it. */
  lemma Continues(first: string, more: seq<string>)
    requires IsInstruction([first]) && OneLines(more) && (forall i :: 0 <= i < |more| ==> !IsComment(more[i]))
    requires more != [] && Closes(more[|more| - 1])
    ensures IsInstruction([first] + more)
  {
    hide IsComment, Closes;
    assert [first][0] == first && !IsComment([first][0]);
    var pieces := [first] + more;
    forall i | 0 <= i < |pieces| ensures !IsComment(pieces[i]) && '\n' !in pieces[i] {
      assert i == 0 || pieces[i] == more[i - 1];
    }
  }

  lemma PiecesContinue(first: string, more: seq<string>)
    requires IsInstruction([first]) && more != [] && forall i :: 0 <= i < |more| ==> IsPiece(more[i])
    ensures IsInstruction([first] + more)
  {
    hide IsComment, Closes;
    Continues(first, more);
  }

  /** Two pieces and a blank line after them. */
  lemma PairReads(first: string, second: string)
    requires IsInstruction([first]) && IsPiece(second)
    ensures Reads([first + " \\", second, ""], [[first, second]])
  {
    Continues(first, [second]);
    hide IsPiece, Reads, IsInstruction, Closes, IsComment;
    assert [first] + [second] == [first, second];
    ReadsInstruction([first, second]);
    assert [first, second][1..] == [second];
    assert Printed([first, second]) == [first + " \\"] + Printed([second]) && Printed([second]) == [second];
    assert [first + " \\"] + [second] == [first + " \\", second];
    ReadsNothing();
    ReadsConcat([first + " \\", second], [[first, second]], [""], []);
    assert [first + " \\", second] + [""] == [first + " \\", second, ""];
    assert [[first, second]] + [] == [[first, second]];
  }

  // The fixed lines and parts of lines, one by one.

  lemma FromAlpine() ensures Word("FROM alpine:3.20 AS addons_base") {}

  lemma AddGit() ensures Word("RUN apk add --no-cache git") {}

  lemma MakeDirectory() ensures Word("&& mkdir -p /tmp/extra_addons") {}

  lemma FromBase() ensures Word(FROM_BASE) {
    var a, b := "FROM ${ODOO_BASE_IMAGE}", " AS configuration_layer";
    assert Begins(a) && OneLine(a) by { FromBaseStart(); }
    assert Ends(b) && OneLine(b) by { FromBaseEnd(); }
    Together(a, b);
  }

  lemma FromBaseStart() ensures Begins("FROM ${ODOO_BASE_IMAGE}") && OneLine("FROM ${ODOO_BASE_IMAGE}") {}

  lemma FromBaseEnd() ensures Ends(" AS configuration_layer") && OneLine(" AS configuration_layer") {}

  lemma Users() ensures Word("USER root") && Word("USER ubuntu") && Word("WORKDIR /volumes") {}

  lemma FromLayer() ensures Word("FROM configuration_layer") {}

  lemma Copies() ensures Word(COPY_CONFIG) && Word(COPY_EXTRA) && Word(COPY_ADDONS) {
    hide Begins, Ends, OneLine;
    CopyConfigParts();
    Together("COPY config/odoo.conf", " /volumes/config/odoo.conf");
    CopyExtraParts();
    Together("COPY extra_addons", " /volumes/extra_addons");
    CopyAddonsParts();
    Together("COPY addons", " /volumes/addons");
  }

  lemma CopyConfigParts()
    ensures Begins("COPY config/odoo.conf") && OneLine("COPY config/odoo.conf")
    ensures Ends(" /volumes/config/odoo.conf") && OneLine(" /volumes/config/odoo.conf")
  {}

  lemma CopyExtraParts()
    ensures Begins("COPY extra_addons") && OneLine("COPY extra_addons")
    ensures Ends(" /volumes/extra_addons") && OneLine(" /volumes/extra_addons")
  {}

  lemma CopyAddonsParts()
    ensures Begins("COPY addons") && OneLine("COPY addons") && Ends(" /volumes/addons") && OneLine(" /volumes/addons")
  {}

  lemma BaseReads()
    ensures Reads(ADDONS_BASE_LINES, ADDONS_BASE)
  {
    hide Word, Reads, IsPiece, IsInstruction;
    FromAlpine();
    AddGit();
    MakeDirectory();
    var f, a, m := "FROM alpine:3.20 AS addons_base", "RUN apk add --no-cache git", "    " + "&& mkdir -p /tmp/extra_addons";
    WordReads(f);
    WordReads(a);
    WordIndented("    ", "&& mkdir -p /tmp/extra_addons");
    PairReads(a, m);
    ReadsConcat([f, ""], [[f]], [a + " \\", m, ""], [[a, m]]);
    assert ADDONS_BASE_LINES == [f, ""] + [a + " \\", m, ""];
    assert ADDONS_BASE == [[f]] + [[a, m]];
  }

  lemma ConfigurationReads()
    ensures Reads(CONFIGURATION_LINES, CONFIGURATION)
  {
    hide Word, Reads;
    FromBase();
    Users();
    WordReads(FROM_BASE);
    WordReads("USER root");
    ReadsConcat([FROM_BASE, ""], [[FROM_BASE]], ["USER root", ""], [["USER root"]]);
    assert CONFIGURATION_LINES == [FROM_BASE, ""] + ["USER root", ""] && CONFIGURATION == [[FROM_BASE]] + [["USER root"]];
  }

  lemma FinalReads()
    ensures Reads(FINAL_LINES, FINAL)
  {
    hide Word, Reads;
    FromLayer();
    Users();
    Copies();
    var f, u, w := "FROM configuration_layer", "USER ubuntu", "WORKDIR /volumes";
    WordReads(f);
    WordReads(u);
    WordReads(w);
    WordReads(COPY_CONFIG);
    WordReads(COPY_EXTRA);
    ReadsConcat([f, ""], [[f]], [u, ""], [[u]]);
    ReadsConcat([w, ""], [[w]], [COPY_CONFIG, ""], [[COPY_CONFIG]]);
    ReadsConcat([f, ""] + [u, ""], [[f]] + [[u]], [w, ""] + [COPY_CONFIG, ""], [[w]] + [[COPY_CONFIG]]);
    ReadsConcat(([f, ""] + [u, ""]) + ([w, ""] + [COPY_CONFIG, ""]), ([[f]] + [[u]]) + ([[w]] + [[COPY_CONFIG]]),
                [COPY_EXTRA], [[COPY_EXTRA]]);
    assert FINAL_LINES == ([f, ""] + [u, ""]) + ([w, ""] + [COPY_CONFIG, ""]) + [COPY_EXTRA];
    assert FINAL == ([[f]] + [[u]]) + ([[w]] + [[COPY_CONFIG]]) + [[COPY_EXTRA]];
  }

  // ---- lists of entries ----

  /** An instruction and the blank line after it. */
  lemma InstructionAndBlank(pieces: Instruction)
    requires IsInstruction(pieces)
    ensures Reads(Printed(pieces) + [""], [pieces])
  {
    hide IsInstruction, Reads;
    ReadsInstruction(pieces);
    ReadsNothing();
    ReadsConcat(Printed(pieces), [pieces], [""], []);
    assert [pieces] + [] == [pieces];
  }

  lemma {:induction false} PrintedIs(pieces: Instruction, lines: seq<string>)
    requires |lines| == |pieces| > 0 && lines[|lines| - 1] == pieces[|lines| - 1]
    requires forall i :: 0 <= i < |lines| - 1 ==> lines[i] == pieces[i] + " \\"
    ensures Printed(pieces) == lines
    decreases |pieces|
  {
    if |pieces| > 1 {
      PrintedIs(pieces[1..], lines[1..]);
      assert lines == [lines[0]] + lines[1..];
    }
  }

  lemma StripContinuation(s: string)
    requires s != "" && s[|s| - 1] !in CONTINUATION
    ensures RStrip(s + " \\", CONTINUATION) == s
  {
    assert (s + " \\")[..|s| + 1] == s + " ";
    assert (s + " ")[..|s|] == s;
  }

  /** A continued list whose last line has lost its continuation is the list printed. */
  lemma ListPrinted(first: string, items: seq<string>, before: string, after: string)
    requires items != [] && Ended(before + items[|items| - 1] + after)
    ensures Printed([first] + Each(items, before, after)) == [first + " \\"] + LastStripped(Each(items, before, after + " \\"))
  {
    var pieces, lines := [first] + Each(items, before, after), [first + " \\"] + LastStripped(Each(items, before, after + " \\"));
    var n := |items|;
    forall i | 0 <= i < n ensures before + items[i] + (after + " \\") == before + items[i] + after + " \\" {}
    StripContinuation(before + items[n - 1] + after);
    forall i | 0 <= i < n ensures lines[i] == pieces[i] + " \\" {
      if i > 0 { assert lines[i] == before + items[i - 1] + (after + " \\"); }
    }
    PrintedIs(pieces, lines);
  }

  /** An entry of a list is indented: it does not begin with a comment, and when it is the last one it does not continue
      the line, also not through what the printer takes off its end. */
  predicate Shown(e: string) {
    !IsComment(e)
  }

  predicate Final(e: string) {
    Closes(e) && Ended(e)
  }

  const INDENT: string := "        "

  lemma {:induction false} RStripBehind(front: string, e: string)
    ensures RStrip(front + e, BLANKS)
            == if RStrip(e, BLANKS) != "" then front + RStrip(e, BLANKS) else RStrip(front, BLANKS)
  {
    if e == "" {
      assert front + e == front;
    } else if e[|e| - 1] in BLANKS {
      assert (front + e)[..|front + e| - 1] == front + e[..|e| - 1];
      RStripBehind(front, e[..|e| - 1]);
    }
  }

  /** What stands before an entry does not matter to its end. */
  lemma ContinuedBehind(front: string, e: string)
    requires front != "" && front[|front| - 1] != '\\'
    requires RStrip(front, BLANKS) != "" ==> RStrip(front, BLANKS) == front
    ensures IsContinued(front + e) <==> IsContinued(e)
  {
    RStripBehind(front, e);
    var t, u := RStrip(front + e, BLANKS), RStrip(e, BLANKS);
    if u != "" {
      assert t == front + u && t[|t| - 1] == u[|u| - 1];
      assert t[|t| - 2] == if |u| == 1 then front[|front| - 1] else u[|u| - 2];
    }
    hide RStrip;
  }

  lemma EntryIndented(e: string)
    ensures (IsComment(INDENT + e) <==> IsComment(e)) && (Closes(INDENT + e) <==> Closes(e))
    ensures Closes(e) ==> (Ended(INDENT + e) <==> Ended(e))
  {
    LStripSkip(INDENT, e);
    assert RStrip(INDENT, BLANKS) == "" by { IndentIsBlank(); }
    ContinuedBehind(INDENT, e);
    hide IsContinued, LStrip;
    if e != "" { assert (INDENT + e)[|INDENT + e| - 1] == e[|e| - 1]; }
    assert IsBlank("") by { NothingIsBlank(); }
  }

  lemma IndentIsBlank() ensures RStrip(INDENT, BLANKS) == "" {
    assert forall i :: 0 <= i < |INDENT| ==> INDENT[i] == ' ';
    BlanksStripped(INDENT);
  }

  lemma {:induction false} BlanksStripped(s: string)
    requires forall i :: 0 <= i < |s| ==> s[i] == ' '
    ensures RStrip(s, BLANKS) == ""
  {
    if s != "" { BlanksStripped(s[..|s| - 1]); }
  }

  lemma NothingIsBlank() ensures IsBlank("") && !IsContinued("") {}

  function Entries(items: seq<string>): seq<string> {
    Each(items, INDENT, "")
  }

  lemma EntriesAre(items: seq<string>)
    ensures |Entries(items)| == |items| && forall i :: 0 <= i < |items| ==> Entries(items)[i] == INDENT + items[i]
  {
    forall i | 0 <= i < |items| ensures INDENT + items[i] + "" == INDENT + items[i] {}
  }

  lemma EntriesShown(items: seq<string>)
    requires OneLines(items) && forall i :: 0 <= i < |items| ==> Shown(items[i])
    ensures OneLines(Entries(items)) && forall i :: 0 <= i < |items| ==> !IsComment(Entries(items)[i])
  {
    hide IsComment, Closes;
    EntriesAre(items);
    forall i | 0 <= i < |items| ensures !IsComment(Entries(items)[i]) && '\n' !in Entries(items)[i] {
      assert Shown(items[i]);
      EntryIndented(items[i]);
    }
  }

  predicate PipOk(pip: seq<string>) {
    (forall i :: 0 <= i < |pip| ==> Shown(pip[i])) && (pip != [] ==> Final(pip[|pip| - 1]))
  }

  lemma PipPieces(pip: seq<string>)
    requires pip != [] && OneLines(pip) && PipOk(pip)
    ensures IsInstruction(["RUN pip install"] + Entries(pip)) && Final(Entries(pip)[|pip| - 1])
  {
    hide IsComment, Closes, Entries;
    var first := "RUN pip install";
    assert IsInstruction([first]) by { PipWord(); WordReads(first); }
    EntriesAre(pip);
    EntriesShown(pip);
    EntryIndented(pip[|pip| - 1]);
    Continues(first, Entries(pip));
  }

  lemma PipReads(pip: seq<string>)
    requires OneLines(pip) && PipOk(pip)
    ensures Reads(PipLines(pip), PipInstructions(pip))
  {
    if pip == [] {
      ReadsNothing();
    } else {
      hide IsInstruction, Reads, Closes, Each, Shown;
      var pieces := ["RUN pip install"] + Entries(pip);
      PipPieces(pip);
      InstructionAndBlank(pieces);
      assert Ended(INDENT + pip[|pip| - 1] + "");
      ListPrinted("RUN pip install", pip, INDENT, "");
      assert "" + " \\" == " \\";
      PipLinesAre(pip);
    }
  }

  lemma PipWord() ensures Word("RUN pip install") {}

  lemma PipLinesAre(pip: seq<string>)
    requires pip != []
    ensures PipLines(pip) == ["RUN pip install" + " \\"] + LastStripped(Each(pip, "        ", " \\")) + [""]
  {
    hide Each;
    var a, b := ["RUN pip install" + " \\"], Each(pip, "        ", " \\");
    assert |b| == |pip|;
    assert (a + b)[..|a + b| - 1] == a + b[..|b| - 1];
    assert LastStripped(a + b) == a + LastStripped(b);
  }

  lemma AptParts()
    ensures Word("RUN apt-get update") && Begins("&& apt-get install -y") && OneLine("&& apt-get install -y")
  {}

  lemma AptMoreParts()
    ensures Ends(" --no-install-recommends") && OneLine(" --no-install-recommends") && Word("&& rm -rf /var/lib/apt/lists/*")
  {}

  lemma AptPieces()
    ensures IsInstruction(["RUN apt-get update"]) && IsPiece(APT_INSTALL) && IsPiece(APT_CLEAN)
  {
    hide Begins, Ends, OneLine, IsPiece;
    AptParts();
    AptMoreParts();
    WordReads("RUN apt-get update");
    Together("&& apt-get install -y", " --no-install-recommends");
    WordIndented("    ", "&& apt-get install -y" + " --no-install-recommends");
    WordIndented("    ", "&& rm -rf /var/lib/apt/lists/*");
  }

  function AptMore(apt: seq<string>): seq<string> {
    [APT_INSTALL] + Each(apt, "        ", "") + [APT_CLEAN]
  }

  lemma AptMoreShown(apt: seq<string>)
    requires OneLines(apt) && forall i :: 0 <= i < |apt| ==> Shown(apt[i])
    ensures OneLines(AptMore(apt)) && forall i :: 0 <= i < |AptMore(apt)| ==> !IsComment(AptMore(apt)[i])
    ensures Closes(AptMore(apt)[|AptMore(apt)| - 1])
  {
    hide IsComment, Closes, Shown, Each;
    AptPieces();
    EntriesShown(apt);
    var more := AptMore(apt);
    forall i | 0 <= i < |more| ensures !IsComment(more[i]) && '\n' !in more[i] {
      if 0 < i < |more| - 1 { assert more[i] == Entries(apt)[i - 1]; }
    }
  }

  lemma AptIsInstruction(apt: seq<string>)
    requires OneLines(apt) && forall i :: 0 <= i < |apt| ==> Shown(apt[i])
    ensures IsInstruction(["RUN apt-get update"] + AptMore(apt))
  {
    hide IsComment, Closes, Shown, AptMore;
    AptPieces();
    AptMoreShown(apt);
    assert AptMore(apt) != [] by { AptMoreIsThere(apt); }
    Continues("RUN apt-get update", AptMore(apt));
  }

  lemma AptMoreIsThere(apt: seq<string>) ensures AptMore(apt) != [] {}

  lemma AptReads(apt: seq<string>)
    requires OneLines(apt) && forall i :: 0 <= i < |apt| ==> Shown(apt[i])
    ensures Reads(AptLines(apt), AptInstructions(apt))
  {
    if apt == [] {
      ReadsNothing();
    } else {
      hide Shown, IsInstruction, Reads, Each, AptLines;
      AptIsInstruction(apt);
      InstructionAndBlank(["RUN apt-get update"] + AptMore(apt));
      AptPrinted(apt, AptMore(apt));
      AptAsked(apt);
    }
  }

  lemma AptAsked(apt: seq<string>)
    requires apt != []
    ensures AptInstructions(apt) == [["RUN apt-get update"] + AptMore(apt)]
  {
    hide Each;
    assert ["RUN apt-get update"] + ([APT_INSTALL] + Each(apt, "        ", "") + [APT_CLEAN])
        == ["RUN apt-get update", APT_INSTALL] + Each(apt, "        ", "") + [APT_CLEAN];
  }

  lemma AptPrinted(apt: seq<string>, more: seq<string>)
    requires apt != [] && more == [APT_INSTALL] + Each(apt, "        ", "") + [APT_CLEAN]
    ensures Printed(["RUN apt-get update"] + more) + [""] == AptLines(apt)
  {
    var pieces := ["RUN apt-get update"] + more;
    var lines := ["RUN apt-get update" + " \\", APT_INSTALL + " \\"] + Each(apt, "        ", " \\") + [APT_CLEAN];
    forall i | 0 <= i < |lines| - 1 ensures lines[i] == pieces[i] + " \\" {
      if i > 1 {
        assert pieces[i] == "        " + apt[i - 2] + "" && lines[i] == "        " + apt[i - 2] + " \\";
        assert "        " + apt[i - 2] + "" == "        " + apt[i - 2];
      }
    }
    PrintedIs(pieces, lines);
    assert lines + [""] == AptLines(apt);
  }

  lemma CloneParts()
    ensures Begins("RUN git clone --depth 1 ") && OneLine("RUN git clone --depth 1 ") && OneLine("--branch ") && OneLine(" ")
    ensures OneLine(" /tmp/src") && Ends(" /tmp/src") && OneLine("")
  {}

  lemma CloneWord(s: Source)
    requires OneLine(s.repo) && OneLine(s.branch)
    ensures Word(CloneCommand(s))
  {
    hide Begins, Ends, OneLine;
    CloneParts();
    var head, branch := "RUN git clone --depth 1 ", if s.branch != "" then "--branch " + s.branch + " " else "";
    Together("--branch ", s.branch);
    Together("--branch " + s.branch, " ");
    Together(head, branch);
    Together(head + branch, s.repo);
    Together(head + branch + s.repo, " /tmp/src");
  }

  lemma ModuleParts()
    ensures Begins("&& cp -a /tmp/src/") && OneLine("&& cp -a /tmp/src/") && OneLine(MODULE_AFTER) && Ends(MODULE_AFTER)
  {}

  lemma ModulePiece(m: string)
    requires OneLine(m)
    ensures IsPiece(MODULE_BEFORE + m + MODULE_AFTER) && Ends(MODULE_BEFORE + m + MODULE_AFTER)
  {
    hide Begins, Ends, OneLine, IsPiece;
    ModuleParts();
    Together("&& cp -a /tmp/src/", m);
    Together("&& cp -a /tmp/src/" + m, MODULE_AFTER);
    WordIndented("    ", "&& cp -a /tmp/src/" + m + MODULE_AFTER);
    assert "    " + ("&& cp -a /tmp/src/" + m + MODULE_AFTER) == MODULE_BEFORE + m + MODULE_AFTER;
    Together(MODULE_BEFORE + m, MODULE_AFTER);
  }

  lemma TakeAllParts()
    ensures Begins("&& for m in /tmp/src/*/") && OneLine("&& for m in /tmp/src/*/") && OneLine("__manifest__.py; do cp -a")
  {}

  lemma TakeAllMoreParts()
    ensures OneLine(" \"$(dirname \"$m\")\"") && OneLine(" /tmp/extra_addons/; done") && Ends(" /tmp/extra_addons/; done")
  {}

  lemma TakeAllPiece()
    ensures IsPiece(TAKE_ALL)
  {
    hide Begins, Ends, OneLine, IsPiece;
    TakeAllParts();
    TakeAllMoreParts();
    var a, b, c, d := "&& for m in /tmp/src/*/", "__manifest__.py; do cp -a", " \"$(dirname \"$m\")\"", " /tmp/extra_addons/; done";
    Together(a, b);
    Together(a + b, c);
    Together(a + b + c, d);
    WordIndented("    ", a + b + c + d);
  }

  lemma StageWord(stage: string)
    requires OneLine(stage) && Ends(stage)
    ensures Word("FROM addons_base AS " + stage)
  {
    hide Begins, Ends, OneLine;
    StagePart();
    Together("FROM addons_base AS ", stage);
  }

  lemma StagePart() ensures Begins("FROM addons_base AS ") && OneLine("FROM addons_base AS ") {}

  /** The lines that fetch a source. */
  function FetchLines(s: Source): seq<string> {
    [CloneCommand(s) + " \\"]
    + (if s.modules == [] then [TAKE_ALL] else LastStripped(Each(s.modules, MODULE_BEFORE, MODULE_AFTER + " \\")))
    + [""]
  }

  /** The clone and its copies. */
  lemma FetchReads(s: Source)
    requires OneLine(s.repo) && OneLine(s.branch) && forall m :: m in s.modules ==> OneLine(m)
    ensures Reads(FetchLines(s), SourceInstructions(s, "")[1..])
  {
    hide Word, IsPiece, Reads, Ends, OneLine, CloneCommand;
    var clone := CloneCommand(s);
    CloneWord(s);
    WordReads(clone);
    if s.modules == [] {
      TakeAllPiece();
      PairReads(clone, TAKE_ALL);
      assert [clone + " \\"] + [TAKE_ALL] + [""] == [clone + " \\", TAKE_ALL, ""] && [clone] + [TAKE_ALL] == [clone, TAKE_ALL];
    } else {
      var pieces := Each(s.modules, MODULE_BEFORE, MODULE_AFTER);
      forall i | 0 <= i < |pieces| ensures IsPiece(pieces[i]) && Ends(pieces[i]) { ModulePiece(s.modules[i]); }
      PiecesContinue(clone, pieces);
      InstructionAndBlank([clone] + pieces);
      ListPrinted(clone, s.modules, MODULE_BEFORE, MODULE_AFTER);
    }
  }

  lemma SourceIs(s: Source, stage: string)
    ensures SourceLines(s, stage) == ["FROM addons_base AS " + stage, ""] + FetchLines(s)
    ensures SourceInstructions(s, stage) == [["FROM addons_base AS " + stage]] + SourceInstructions(s, "")[1..]
  {
    hide CloneCommand, Each, LastStripped;
  }

  lemma SourceReads(s: Source, stage: string)
    requires OneLine(s.repo) && OneLine(s.branch) && (forall m :: m in s.modules ==> OneLine(m)) && OneLine(stage) && Ends(stage)
    ensures Reads(SourceLines(s, stage), SourceInstructions(s, stage))
  {
    hide Word, Reads, Ends, OneLine, CloneCommand, FetchLines, SourceInstructions, SourceLines;
    var f := "FROM addons_base AS " + stage;
    StageWord(stage);
    WordReads(f);
    FetchReads(s);
    SourceIs(s, stage);
    assert SourceInstructions(s, "") != [] by { SourceIsThere(s); }
    ReadsConcat([f, ""], [[f]], FetchLines(s), SourceInstructions(s, "")[1..]);
  }

  lemma SourceIsThere(s: Source) ensures SourceInstructions(s, "") != [] {}

  // ---- stage names ----

  lemma SlugIsPlain(l: Letters, repo: string)
    requires Sane(l)
    ensures OneLine(StageSlug(l, repo)) && Ends(StageSlug(l, repo))
  {
    var raw := Underscored(l, l.lower(WithoutGit(Tail(RStrip(repo, SLASH)))));
    var p := (c: char) => l.alnum(c) || c == '_';
    assert All(raw, p);
    StripKeepsAll(raw, UNDERSCORE, p);
    var slug := StageSlug(l, repo);
    hide StageSlug, Underscored;
    if Strip(raw, UNDERSCORE) != "" {
      assert All(slug, p) by { SlugIs(l, repo); }
      forall i | 0 <= i < |slug| ensures !IsSpace(slug[i]) && slug[i] != '\\' {
        assert p(slug[i]);
      }
    } else {
      SlugIs(l, repo);
    }
  }

  lemma SlugIs(l: Letters, repo: string)
    ensures var slug := Strip(Underscored(l, l.lower(WithoutGit(Tail(RStrip(repo, SLASH))))), UNDERSCORE);
            StageSlug(l, repo) == if slug == "" then "src" else slug
  {
  }

  lemma StageIsPlain(l: Letters, repo: string, index: nat)
    requires Sane(l)
    ensures OneLine(StageName(l, repo, index)) && Ends(StageName(l, repo, index))
  {
    SlugIsPlain(l, repo);
    assert OneLine(Decimal(index));
    hide OneLine, Ends, StageSlug;
    StageParts();
    Together("addons_", Decimal(index));
    Together("addons_" + Decimal(index), "_");
    Together("addons_" + Decimal(index) + "_", StageSlug(l, repo));
  }

  lemma StageParts() ensures OneLine("addons_") && OneLine("_") {}

  lemma {:induction false} TailAppended(url: string, end: string)
    requires SlashFree(end)
    ensures Tail(url + end) == Tail(url) + end
    decreases |end|
  {
    if end == "" {
      assert url + end == url;
    } else {
      var n := |end| - 1;
      assert (url + end)[..|url + end| - 1] == url + end[..n];
      TailAppended(url, end[..n]);
      assert end == end[..n] + [end[n]];
    }
  }

  /** The stage of a repository is named alike with and without `.git` at the end of its address. */
  lemma GitSuffixIsNoMatter(l: Letters, repo: string, index: nat)
    requires RStrip(repo, SLASH) == repo && !(|Tail(repo)| >= 4 && Tail(repo)[|Tail(repo)| - 4..] == ".git")
    ensures StageName(l, repo + ".git", index) == StageName(l, repo, index)
  {
    var named := repo + ".git";
    assert named[|named| - 1] == 't';
    assert RStrip(named, SLASH) == named;
    TailAppended(repo, ".git");
    var tail := Tail(named);
    assert tail[|tail| - 4..] == ".git" && tail[..|tail| - 4] == Tail(repo);
    SlugIs(l, named);
    SlugIs(l, repo);
    hide StageSlug, Underscored, Strip, Tail, RStrip;
  }

  lemma DigitsApart(a: string, x: string, b: string, y: string)
    requires (forall c :: c in b ==> '0' <= c <= '9') && |a| < |b|
    ensures a + ("_" + x) != b + ("_" + y)
  {
    if |a + ("_" + x)| == |b + ("_" + y)| {
      assert (a + ("_" + x))[|a|] == '_';
      assert (b + ("_" + y))[|a|] == b[|a|] && b[|a|] in b;
    }
  }

  lemma SameDigits(a: string, x: string, b: string, y: string)
    requires (forall c :: c in a ==> '0' <= c <= '9') && (forall c :: c in b ==> '0' <= c <= '9')
    requires a + ("_" + x) == b + ("_" + y)
    ensures a == b
  {
    if |a| < |b| { DigitsApart(a, x, b, y); }
    if |b| < |a| { DigitsApart(b, y, a, x); }
    assert a == (a + ("_" + x))[..|a|] && b == (b + ("_" + y))[..|b|];
  }

  /** Stages of different sources have different names, whatever the repositories are called, and never the name of a
      fixed stage. */
  lemma StageNamesDiffer(l: Letters, repo: string, i: nat, other: string, j: nat)
    ensures i != j ==> StageName(l, repo, i) != StageName(l, other, j)
    ensures StageName(l, repo, i) != "addons_base" && StageName(l, repo, i) != "configuration_layer"
  {
    hide StageSlug;
    var x, y := "_" + StageSlug(l, repo), "_" + StageSlug(l, other);
    assert StageName(l, repo, i) == "addons_" + (Decimal(i) + x) && StageName(l, other, j) == "addons_" + (Decimal(j) + y);
    assert StageName(l, repo, i)[7] == Decimal(i)[0] && Decimal(i)[0] in Decimal(i) && StageName(l, repo, i)[0] == 'a';
    assert "addons_base"[7] == 'b' && "configuration_layer"[0] == 'c';
    if StageName(l, repo, i) == StageName(l, other, j) {
      assert StageName(l, repo, i)[7..] == Decimal(i) + x && StageName(l, other, j)[7..] == Decimal(j) + y;
      SameDigits(Decimal(i), StageSlug(l, repo), Decimal(j), StageSlug(l, other));
      if i != j { DecimalsDiffer(i, j); }
    }
  }

  // ---- the whole file ----

  lemma {:induction false} AllSourcesRead(l: Letters, sources: seq<Source>)
    requires Sane(l)
    requires forall s :: s in sources ==> OneLine(s.repo) && OneLine(s.branch) && forall m :: m in s.modules ==> OneLine(m)
    ensures Reads(AllSourceLines(l, sources), AllSources(l, sources))
  {
    hide Reads, OneLine, Ends, StageName, SourceLines, SourceInstructions;
    if sources == [] {
      ReadsNothing();
    } else {
      var n := |sources| - 1;
      AllSourcesRead(l, sources[..n]);
      var stage := StageName(l, sources[n].repo, n);
      StageIsPlain(l, sources[n].repo, n);
      SourceReads(sources[n], stage);
      ReadsConcat(AllSourceLines(l, sources[..n]), AllSources(l, sources[..n]), SourceLines(sources[n], stage),
                  SourceInstructions(sources[n], stage));
    }
  }

  lemma CopyParts()
    ensures Begins("COPY --from=") && OneLine("COPY --from=") && OneLine(" /tmp/extra_addons/")
    ensures OneLine(" /volumes/extra_addons/") && Ends(" /volumes/extra_addons/")
  {}

  lemma CopyWord(stage: string)
    requires OneLine(stage)
    ensures Word("COPY --from=" + stage + FROM_STAGE_TO_VOLUME)
  {
    hide Begins, Ends, OneLine;
    CopyParts();
    Together(" /tmp/extra_addons/", " /volumes/extra_addons/");
    Together("COPY --from=", stage);
    Together("COPY --from=" + stage, FROM_STAGE_TO_VOLUME);
  }

  lemma {:induction false} CopiesRead(stages: seq<string>)
    requires forall s :: s in stages ==> OneLine(s)
    ensures Reads(CopyLines(stages), CopyInstructions(stages))
  {
    hide Reads, Word;
    if stages == [] {
      ReadsNothing();
    } else {
      var n := |stages| - 1;
      CopiesRead(stages[..n]);
      CopyWord(stages[n]);
      var line := "COPY --from=" + stages[n] + FROM_STAGE_TO_VOLUME;
      WordReads(line);
      ReadsConcat(CopyLines(stages[..n]), CopyInstructions(stages[..n]), [line], [[line]]);
      assert CopyLines(stages) == CopyLines(stages[..n]) + [line];
      assert CopyInstructions(stages) == CopyInstructions(stages[..n]) + [[line]];
    }
  }

  lemma ArgParts()
    ensures Begins("ARG ODOO_BASE_IMAGE=") && OneLine("ARG ODOO_BASE_IMAGE=")
    ensures Ends("ARG ODOO_BASE_IMAGE=") && OneLine(DEFAULT_BASE_IMAGE) && Ends(DEFAULT_BASE_IMAGE)
  {}

  function ArgLine(image: string): string {
    "ARG ODOO_BASE_IMAGE=" + OrElse(image, DEFAULT_BASE_IMAGE)
  }

  lemma ArgIs(image: string)
    requires OneLine(image)
    ensures Begins(ArgLine(image)) && OneLine(ArgLine(image)) && (IsContinued(ArgLine(image)) <==> IsContinued(image))
  {
    hide Begins, Ends, OneLine, IsContinued, RStrip;
    ArgParts();
    Together("ARG ODOO_BASE_IMAGE=", OrElse(image, DEFAULT_BASE_IMAGE));
    EndsHere("ARG ODOO_BASE_IMAGE=");
    ArgEnd();
    ContinuedBehind("ARG ODOO_BASE_IMAGE=", OrElse(image, DEFAULT_BASE_IMAGE));
    EndsHere(DEFAULT_BASE_IMAGE);
    assert !IsContinued("") by { NothingIsBlank(); }
  }

  lemma ArgEnd()
    ensures var front := "ARG ODOO_BASE_IMAGE="; front[|front| - 1] != '\\' && RStrip(front, BLANKS) == front
  {
    var front := "ARG ODOO_BASE_IMAGE=";
    assert front[|front| - 1] == '=';
  }

  lemma ArgReads(image: string)
    requires OneLine(image) && !IsContinued(image)
    ensures Reads([ArgLine(image), ""], [[ArgLine(image)]])
  {
    hide Begins, OneLine, Reads, IsContinued;
    ArgIs(image);
    LineReads(ArgLine(image));
  }

  lemma SourcesPartReads(l: Letters, sources: seq<Source>)
    requires Sane(l)
    requires forall s :: s in sources ==> OneLine(s.repo) && OneLine(s.branch) && forall m :: m in s.modules ==> OneLine(m)
    ensures Reads(SourcesPart(l, sources), if sources == [] then [] else ADDONS_BASE + AllSources(l, sources))
  {
    hide Reads, OneLine, AllSourceLines, AllSources;
    ReadsNothing();
    BaseReads();
    AllSourcesRead(l, sources);
    ReadsConcat(ADDONS_BASE_LINES, ADDONS_BASE, AllSourceLines(l, sources), AllSources(l, sources));
  }

  /** Every entry is on one line. */
  ghost predicate OneLined(p: Pipeline) {
    && OneLine(p.baseImage) && OneLines(p.apt) && OneLines(p.pip)
    && forall s :: s in p.sources ==> OneLine(s.repo) && OneLine(s.branch) && forall m :: m in s.modules ==> OneLine(m)
  }

  /** The base image does not continue its line, no package is a comment, and the last line of `pip` ends as it was given
      and does not continue. */
  predicate Faithful(p: Pipeline) {
    !IsContinued(p.baseImage) && (forall i :: 0 <= i < |p.apt| ==> Shown(p.apt[i])) && PipOk(p.pip)
  }

  /** The front of the file: the base image, the sources and the configuration layer. */
  function Head(l: Letters, p: Pipeline): seq<string> {
    [ArgLine(p.baseImage), ""] + SourcesPart(l, p.sources) + CONFIGURATION_LINES
  }

  function HeadAsked(l: Letters, p: Pipeline): seq<Instruction> {
    [[ArgLine(p.baseImage)]] + (if p.sources == [] then [] else ADDONS_BASE + AllSources(l, p.sources)) + CONFIGURATION
  }

  /** What comes after the packages. */
  function Back(l: Letters, p: Pipeline): seq<string> {
    FINAL_LINES + CopyLines(StageNames(l, p.sources)) + ["", COPY_ADDONS, ""]
  }

  function BackAsked(l: Letters, p: Pipeline): seq<Instruction> {
    FINAL + CopyInstructions(StageNames(l, p.sources)) + [[COPY_ADDONS]]
  }

  lemma BodyIs(l: Letters, p: Pipeline)
    ensures Body(l, p) == Head(l, p) + (AptLines(p.apt) + (PipLines(p.pip) + Back(l, p)))
    ensures Asked(l, p) == HeadAsked(l, p) + (AptInstructions(p.apt) + (PipInstructions(p.pip) + BackAsked(l, p)))
  {
    hide SourcesPart, AllSources, AptLines, PipLines, AptInstructions, PipInstructions, CopyLines, CopyInstructions, StageNames,
      OrElse;
    var f, c, e := FINAL_LINES, CopyLines(StageNames(l, p.sources)), ["", COPY_ADDONS, ""];
    var a, b := AptLines(p.apt), PipLines(p.pip);
    assert Head(l, p) + a + b + f + c + e == Head(l, p) + (a + (b + (f + c + e)));
    var g, d, h := FINAL, CopyInstructions(StageNames(l, p.sources)), [[COPY_ADDONS]];
    var x, y := AptInstructions(p.apt), PipInstructions(p.pip);
    assert HeadAsked(l, p) + x + y + g + d + h == HeadAsked(l, p) + (x + (y + (g + d + h)));
  }

  lemma HeadReads(l: Letters, p: Pipeline)
    requires Sane(l) && OneLined(p) && !IsContinued(p.baseImage)
    ensures Reads(Head(l, p), HeadAsked(l, p))
  {
    hide Reads, SourcesPart, AllSources, IsContinued, ArgLine;
    var arg := ArgLine(p.baseImage);
    var sources := if p.sources == [] then [] else ADDONS_BASE + AllSources(l, p.sources);
    ArgReads(p.baseImage);
    SourcesPartReads(l, p.sources);
    ConfigurationReads();
    ReadsConcat([arg, ""], [[arg]], SourcesPart(l, p.sources), sources);
    ReadsConcat([arg, ""] + SourcesPart(l, p.sources), [[arg]] + sources, CONFIGURATION_LINES, CONFIGURATION);
  }

  lemma BackReads(l: Letters, p: Pipeline)
    requires Sane(l)
    ensures Reads(Back(l, p), BackAsked(l, p))
  {
    hide Reads, CopyLines, CopyInstructions;
    var stages := StageNames(l, p.sources);
    FinalReads();
    forall s | s in stages ensures OneLine(s) {
      var i :| 0 <= i < |stages| && stages[i] == s;
      StageIsPlain(l, p.sources[i].repo, i);
    }
    CopiesRead(stages);
    Copies();
    WordReads(COPY_ADDONS);
    ReadsNothing();
    ReadsConcat([""], [], [COPY_ADDONS, ""], [[COPY_ADDONS]]);
    assert [""] + [COPY_ADDONS, ""] == ["", COPY_ADDONS, ""] && [] + [[COPY_ADDONS]] == [[COPY_ADDONS]];
    ReadsConcat(FINAL_LINES, FINAL, CopyLines(stages), CopyInstructions(stages));
    ReadsConcat(FINAL_LINES + CopyLines(stages), FINAL + CopyInstructions(stages), ["", COPY_ADDONS, ""], [[COPY_ADDONS]]);
  }

  lemma BodyReads(l: Letters, p: Pipeline)
    requires Sane(l) && OneLined(p) && Faithful(p)
    ensures Reads(Body(l, p), Asked(l, p))
  {
    hide Reads, Head, HeadAsked, Back, BackAsked, AptLines, PipLines, AptInstructions, PipInstructions, Shown, PipOk, Body, Asked,
      IsContinued;
    BodyIs(l, p);
    HeadReads(l, p);
    AptReads(p.apt);
    PipReads(p.pip);
    BackReads(l, p);
    ReadsConcat(PipLines(p.pip), PipInstructions(p.pip), Back(l, p), BackAsked(l, p));
    ReadsConcat(AptLines(p.apt), AptInstructions(p.apt), PipLines(p.pip) + Back(l, p), PipInstructions(p.pip) + BackAsked(l, p));
    ReadsConcat(Head(l, p), HeadAsked(l, p), AptLines(p.apt) + (PipLines(p.pip) + Back(l, p)),
                AptInstructions(p.apt) + (PipInstructions(p.pip) + BackAsked(l, p)));
  }

  lemma HeaderParts1()
    ensures OneLine("# Generated by the Adomi") && OneLine(" platform from") && OneLine(" adomi-pipeline.yaml.")
  {}

  lemma HeaderParts2()
    ensures OneLine("# Do not edit by hand:") && OneLine(" change adomi-pipeline.yaml") && OneLine(" (or the Pipeline tab in the")
  {}

  lemma HeaderParts3()
    ensures OneLine("# portal) and this file is") && OneLine(" regenerated on the") && OneLine(" next commit.")
  {}

  /** The header is three comment lines, and a blank line where the body starts. */
  lemma HeaderSplits(body: string)
    ensures Split(HEADER + "\n" + body) == [HEADER_1, HEADER_2, HEADER_3, ""] + Split(body)
  {
    assert OneLine(HEADER_1) by { HeaderParts1(); Together("# Generated by the Adomi", " platform from"); Together("# Generated by the Adomi" + " platform from", " adomi-pipeline.yaml."); }
    assert OneLine(HEADER_2) by { HeaderParts2(); Together("# Do not edit by hand:", " change adomi-pipeline.yaml"); Together("# Do not edit by hand:" + " change adomi-pipeline.yaml", " (or the Pipeline tab in the"); }
    assert OneLine(HEADER_3) by { HeaderParts3(); Together("# portal) and this file is", " regenerated on the"); Together("# portal) and this file is" + " regenerated on the", " next commit."); }
    HeaderSplit(HEADER_1, HEADER_2, HEADER_3, body);
  }

  lemma HeaderSplit(a: string, b: string, c: string, body: string)
    requires OneLine(a) && OneLine(b) && OneLine(c)
    ensures Split((a + "\n" + b + "\n" + c + "\n") + "\n" + body) == [a, b, c, ""] + Split(body)
  {
    hide Split, OneLine;
    SplitOneLine(a);
    SplitOneLine(b);
    SplitOneLine(c);
    assert Split("") == [""] by { NothingSplits(); }
    SplitAt(a + "\n" + b + "\n" + c + "\n", body);
    assert a + "\n" + b + "\n" + c + "\n" == a + "\n" + b + "\n" + c + "\n" + "";
    SplitAt(a + "\n" + b + "\n" + c, "");
    SplitAt(a + "\n" + b, c);
    SplitAt(a, b);
  }

  lemma NothingSplits() ensures Split("") == [""] {}

  lemma OneSkipped(line: string, rest: seq<string>)
    requires IsComment(line) || IsBlank(line)
    ensures Read([line] + rest) == Read(rest)
  {
    assert ([line] + rest)[1..] == rest;
  }

  lemma CommentsSkipped(a: string, b: string, c: string, rest: seq<string>)
    requires IsComment(a) && IsComment(b) && IsComment(c)
    ensures Read([a, b, c, ""] + rest) == Read(rest)
  {
    assert IsBlank("");
    hide IsComment, IsBlank, Read;
    OneSkipped("", rest);
    OneSkipped(c, [""] + rest);
    OneSkipped(b, [c] + ([""] + rest));
    OneSkipped(a, [b] + ([c] + ([""] + rest)));
    assert [a, b, c, ""] + rest == [a] + ([b] + ([c] + ([""] + rest)));
  }

  lemma HashIsComment(s: string)
    requires s != "" && s[0] == '#'
    ensures IsComment(s)
  {
  }

  /** The header is skipped, and the lines of the text are those of the buffer. */
  lemma TextRead(body: seq<string>)
    requires body != [] && OneLines(body)
    ensures Read(Split(Join([HEADER] + body))) == Read(body)
  {
    hide Read, IsComment, OneLines;
    assert ([HEADER] + body)[1..] == body;
    HeaderSplits(Join(body));
    SplitJoined(body);
    HeaderComments();
    CommentsSkipped(HEADER_1, HEADER_2, HEADER_3, body);
  }

  /** The printed file, read back: splitting the text into lines, dropping comments and joining what was continued gives
      exactly the instructions asked for. */
  lemma DockerfileSaysWhatWasAsked(l: Letters, p: Pipeline)
    requires Sane(l) && OneLined(p) && Faithful(p)
    ensures Read(Split(Join([HEADER] + Body(l, p)))) == AllGlued(Asked(l, p))
  {
    BodyReads(l, p);
    hide Body, Asked, Sane, OneLined, Faithful, Read, AllGlued;
    var body := Body(l, p);
    assert body != [] by { BodyIsThere(l, p); }
    TextRead(body);
    assert ReadsBefore(body, Asked(l, p), []) && body + [] == body;
    assert Read([]) == [] by { NothingRead(); }
  }

  lemma HeaderComments() ensures IsComment(HEADER_1) && IsComment(HEADER_2) && IsComment(HEADER_3) {
    HashIsComment(HEADER_1);
    HashIsComment(HEADER_2);
    HashIsComment(HEADER_3);
  }

  lemma NothingRead() ensures Read([]) == [] {}

  lemma BodyIsThere(l: Letters, p: Pipeline) ensures Body(l, p) != [] {}

  // ---- the stages are used as they are declared ----

  lemma {:induction false} SourceStageAt(l: Letters, sources: seq<Source>, i: nat)
    requires i < |sources|
    ensures |AllSources(l, sources)| == 2 * |sources|
    ensures AllSources(l, sources)[2 * i] == ["FROM addons_base AS " + StageName(l, sources[i].repo, i)]
  {
    hide StageName;
    var n := |sources| - 1;
    if n > 0 { SourceStageAt(l, sources[..n], if i < n then i else 0); }
    assert |AllSources(l, sources[..n])| == 2 * n;
    assert |SourceInstructions(sources[n], StageName(l, sources[n].repo, n))| == 2;
  }

  /** The final image copies once from each source's stage, in the order of the sources, and each of these stages is
      declared before it. */
  lemma CopiesFollowStages(l: Letters, p: Pipeline, i: nat)
    requires i < |p.sources|
    ensures var asked, stage := Asked(l, p), StageName(l, p.sources[i].repo, i);
            var from, copy := 3 + 2 * i, |asked| - 1 - |p.sources| + i;
            && 0 <= from < copy < |asked|
            && asked[from] == ["FROM addons_base AS " + stage]
            && asked[copy] == ["COPY --from=" + stage + FROM_STAGE_TO_VOLUME]
  {
    hide StageName, AllSources, AptInstructions, PipInstructions;
    SourceStageAt(l, p.sources, i);
    var front := [["ARG ODOO_BASE_IMAGE=" + OrElse(p.baseImage, DEFAULT_BASE_IMAGE)]] + (ADDONS_BASE + AllSources(l, p.sources));
    var middle := CONFIGURATION + AptInstructions(p.apt) + PipInstructions(p.pip) + FINAL;
    var copies := CopyInstructions(StageNames(l, p.sources));
    assert Asked(l, p) == front + middle + copies + [[COPY_ADDONS]];
    assert front[3 + 2 * i] == AllSources(l, p.sources)[2 * i];
  }
}
