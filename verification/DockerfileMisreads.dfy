/** Exactly which pipelines are read back as what they ask for. */
module DockerfileMisreads {
  import opened Text
  import opened Dockerfile
  import opened DockerfileMeaning

  // ---- a continued list with a bad entry in it ----

  /** The lines of a list: all entries continue but the last, from which the printer takes what looks like it. */
  function Listed(pieces: Instruction): seq<string>
    requires pieces != []
  {
    if |pieces| == 1 then [RStrip(pieces[0], CONTINUATION)] else [pieces[0] + " \\"] + Listed(pieces[1..])
  }

  /** Every piece is indented. */
  predicate Inset(pieces: Instruction) {
    forall i :: 0 <= i < |pieces| ==> pieces[i] != "" && pieces[i][0] == ' '
  }

  predicate AllShown(pieces: Instruction)
    requires pieces != []
  {
    (forall i :: 0 <= i < |pieces| ==> !IsComment(pieces[i])) && Final(pieces[|pieces| - 1])
  }

  /** A text that is not taken for the end of an entry. */
  predicate Loose(text: string) {
    text == "" || text[0] !in {' ', '\\'}
  }

  /** What is read of a continued instruction never begins with a comment. */
  lemma {:induction false} RestIsNoComment(lines: seq<string>)
    ensures !IsComment(Rest(lines).0)
    decreases |lines|
  {
    if lines != [] {
      var line := lines[0];
      RestIsNoComment(lines[1..]);
      if !IsComment(line) && !IsBlank(line) && IsContinued(line) { PartIsNoComment(line, Rest(lines[1..]).0); }
      hide IsContinued, IsBlank;
    }
  }

  lemma PartIsNoComment(line: string, text: string)
    requires !IsComment(line) && IsContinued(line) && !IsComment(text)
    ensures !IsComment(Part(line) + text)
  {
    var part := Part(line);
    assert part <= line && line == part + line[|part|..];
    hide IsContinued, Part;
    FirstOfPrefix(part, line[|part|..]);
    FirstOfPrefix(part, text);
  }

  /** Whether a line is a comment is decided where its first part is not blank. */
  lemma FirstOfPrefix(a: string, b: string)
    ensures IsComment(a + b) <==> if IsBlank(a) then IsComment(b) else IsComment(a)
  {
    if IsBlank(a) {
      assert LStrip(a, WHITESPACE) == "";
      LStripSkip(a, b);
    } else {
      LStripAppend(a, b);
    }
  }

  /** The last entry, when what is left of it does not end the instruction as given. */
  lemma LastMisread(piece: string, tail: seq<string>)
    requires piece != "" && piece[0] == ' ' && Loose(Rest(tail).0) && (IsComment(piece) || !Final(piece))
    ensures Rest([RStrip(piece, CONTINUATION)] + tail).0 != piece
  {
    var line := RStrip(piece, CONTINUATION);
    assert ([line] + tail)[1..] == tail;
    if IsComment(line) || IsBlank(line) {
    } else if IsContinued(line) {
      hide IsComment, IsBlank, RStrip;
      assert Part(line) <= line by { PartIsPrefix(line); }
      assert line[|Part(line)|] == '\\' by { PartIsPrefix(line); }
      assert piece[|Part(line)|] == '\\';
      assert Rest([line] + tail).0 == Part(line) + Rest(tail).0;
    } else {
      assert Rest([line] + tail).0 == line;
      hide IsContinued, IsBlank, RStrip, Rest;
    }
  }

  lemma PartIsPrefix(line: string)
    requires IsContinued(line)
    ensures Part(line) < line && line[|Part(line)|] == '\\'
  {
  }

  /** A first entry is skipped if it is a comment, and continues if not. */
  lemma FirstEntry(first: string, lines: seq<string>)
    ensures Rest([first + " \\"] + lines).0 == (if IsComment(first) then "" else first + " ") + Rest(lines).0
  {
    ContinuedPiece(first);
    assert ([first + " \\"] + lines)[1..] == lines;
    hide IsContinued, IsBlank, IsComment, Part;
  }

  /** A list with a comment in it, or with a last entry that is cut or continues, is not read as it was given. */
  lemma {:induction false} Misread(pieces: Instruction, tail: seq<string>)
    requires pieces != [] && Inset(pieces) && !AllShown(pieces)
    requires Final(pieces[|pieces| - 1]) || Loose(Rest(tail).0)
    ensures Rest(Listed(pieces) + tail).0 != Glued(pieces)
    decreases |pieces|
  {
    hide IsComment, Final, Loose, Rest;
    if |pieces| == 1 {
      assert pieces == [pieces[0]];
      LastAlone(pieces[0], tail);
    } else {
      var first, more := pieces[0], pieces[1..];
      var text := Rest(Listed(more) + tail).0;
      assert Listed(pieces) + tail == [first + " \\"] + (Listed(more) + tail);
      FirstEntry(first, Listed(more) + tail);
      hide Inset, AllShown;
      if IsComment(first) {
        RestIsNoComment(Listed(more) + tail);
        CommentFirst(first, " " + Glued(more));
        assert Glued(pieces) == first + (" " + Glued(more)) && "" + text == text;
      } else {
        ShownBehind(pieces);
        Misread(more, tail);
        SameBehind(first + " ", text, Glued(more));
      }
    }
  }

  lemma LastAlone(piece: string, tail: seq<string>)
    requires Inset([piece]) && !AllShown([piece]) && (Final(piece) || Loose(Rest(tail).0))
    ensures Rest(Listed([piece]) + tail).0 != Glued([piece])
  {
    assert [piece][0] == piece;
    hide IsContinued, IsBlank, Part, Loose, Rest;
    if Final(piece) {
      CommentSkipped(piece, tail);
    } else {
      LastMisread(piece, tail);
    }
  }

  /** A comment in the last place: it is dropped, and what follows it is no comment. */
  lemma CommentSkipped(piece: string, tail: seq<string>)
    requires IsComment(piece)
    ensures Rest([RStrip(piece, CONTINUATION)] + tail).0 != piece
  {
    RestIsNoComment([RStrip(piece, CONTINUATION)] + tail);
  }

  lemma CommentFirst(a: string, b: string)
    requires IsComment(a)
    ensures IsComment(a + b)
  {
    FirstOfPrefix(a, b);
  }

  lemma ShownBehind(pieces: Instruction)
    requires |pieces| > 1
    ensures AllShown(pieces) <==> !IsComment(pieces[0]) && AllShown(pieces[1..])
    ensures Inset(pieces) ==> Inset(pieces[1..])
  {
    hide IsComment, Final;
    var more := pieces[1..];
    assert forall i :: 0 < i < |pieces| ==> pieces[i] == more[i - 1];
    assert forall i :: 0 <= i < |more| ==> more[i] == pieces[i + 1];
  }

  /** The instruction that such a list continues. */
  lemma FirstMisread(first: string, pieces: Instruction, tail: seq<string>)
    requires Begins(first) && pieces != [] && Inset(pieces) && !AllShown(pieces)
    requires Final(pieces[|pieces| - 1]) || Loose(Rest(tail).0)
    ensures var read := Read([first + " \\"] + (Listed(pieces) + tail)); read != [] && read[0] != Glued([first] + pieces)
  {
    var lines := [first + " \\"] + (Listed(pieces) + tail);
    assert lines[1..] == Listed(pieces) + tail;
    assert LStrip(first, WHITESPACE) == first;
    ContinuedPiece(first);
    Misread(pieces, tail);
    hide IsContinued, IsBlank, IsComment, Part, Rest, AllShown, Listed;
    var text := Rest(Listed(pieces) + tail).0;
    assert Read(lines)[0] == first + " " + text;
    assert ([first] + pieces)[1..] == pieces;
    assert Glued([first] + pieces) == first + " " + Glued(pieces);
    SameBehind(first + " ", text, Glued(pieces));
  }

  // ---- the lists of packages ----

  lemma {:induction false} ListedIs(pieces: Instruction, lines: seq<string>)
    requires |lines| == |pieces| > 0 && lines[|lines| - 1] == RStrip(pieces[|lines| - 1], CONTINUATION)
    requires forall i :: 0 <= i < |lines| - 1 ==> lines[i] == pieces[i] + " \\"
    ensures Listed(pieces) == lines
    decreases |pieces|
  {
    if |pieces| > 1 {
      ListedIs(pieces[1..], lines[1..]);
      assert lines == [lines[0]] + lines[1..];
    }
  }

  lemma StripBoth(s: string)
    ensures RStrip(s + " \\", CONTINUATION) == RStrip(s, CONTINUATION)
  {
    assert (s + " \\")[..|s| + 1] == s + " " && (s + " ")[..|s|] == s;
  }

  lemma PipListed(pip: seq<string>)
    requires pip != []
    ensures PipLines(pip) == ["RUN pip install" + " \\"] + Listed(Entries(pip)) + [""]
    ensures PipInstructions(pip) == [["RUN pip install"] + Entries(pip)]
  {
    hide Listed, RStrip;
    PipLinesAre(pip);
    EntriesAre(pip);
    var lines := LastStripped(Each(pip, INDENT, " \\"));
    var n := |pip| - 1;
    forall i | 0 <= i < n ensures lines[i] == Entries(pip)[i] + " \\" {
      assert lines[i] == INDENT + pip[i] + " \\";
    }
    assert lines[n] == RStrip(INDENT + pip[n] + " \\", CONTINUATION);
    StripBoth(Entries(pip)[n]);
    ListedIs(Entries(pip), lines);
  }

  lemma PipShown(pip: seq<string>)
    requires pip != []
    ensures Inset(Entries(pip)) && (AllShown(Entries(pip)) <==> PipOk(pip))
  {
    hide IsComment, Closes, Ended, Entries;
    EntriesAre(pip);
    forall i | 0 <= i < |pip| ensures IsComment(Entries(pip)[i]) <==> IsComment(pip[i]) { EntryIndented(pip[i]); }
    EntryIndented(pip[|pip| - 1]);
    assert AllShown(Entries(pip)) ==> forall i :: 0 <= i < |pip| ==> !IsComment(Entries(pip)[i]);
    assert PipOk(pip) ==> forall i :: 0 <= i < |pip| ==> Shown(pip[i]);
  }

  /** Reading these lines does not begin with the first of these instructions. */
  ghost predicate Misreads(lines: seq<string>, instructions: seq<Instruction>)
    requires instructions != []
  {
    Read(lines) != [] && Read(lines)[0] != Glued(instructions[0])
  }

  /** A list that is printed with a bad entry, and a blank line after it. */
  lemma ListMisread(first: string, pieces: Instruction, tail: seq<string>, lines: seq<string>, instructions: seq<Instruction>)
    requires Begins(first) && pieces != [] && Inset(pieces) && !AllShown(pieces)
    requires Final(pieces[|pieces| - 1]) || Loose(Rest([""] + tail).0)
    requires lines == [first + " \\"] + Listed(pieces) + [""] && instructions == [[first] + pieces]
    ensures Misreads(lines + tail, instructions)
  {
    hide Read, Rest, Listed, AllShown, Inset, Loose, Final, Glued, Begins;
    FirstMisread(first, pieces, [""] + tail);
    assert lines + tail == [first + " \\"] + (Listed(pieces) + ([""] + tail));
  }

  lemma PipMisread(pip: seq<string>, tail: seq<string>)
    requires !PipOk(pip) && Loose(Rest([""] + tail).0)
    ensures PipInstructions(pip) != [] && Misreads(PipLines(pip) + tail, PipInstructions(pip))
  {
    assert pip != [];
    hide *;
    PipListed(pip);
    PipShown(pip);
    assert Begins("RUN pip install") by { PipBegins(); }
    EntriesThere(pip);
    ListMisread("RUN pip install", Entries(pip), tail, PipLines(pip), PipInstructions(pip));
  }

  lemma PipBegins() ensures Begins("RUN pip install") {
    PipWord();
  }

  lemma EntriesThere(items: seq<string>)
    ensures |Entries(items)| == |items|
  {
  }

  lemma AptListed(apt: seq<string>)
    requires apt != []
    ensures AptMore(apt) != [] && Inset(AptMore(apt)) && Final(APT_CLEAN) && AptMore(apt)[|AptMore(apt)| - 1] == APT_CLEAN
    ensures AptLines(apt) == ["RUN apt-get update" + " \\"] + Listed(AptMore(apt)) + [""]
    ensures AllShown(AptMore(apt)) <==> forall i :: 0 <= i < |apt| ==> Shown(apt[i])
  {
    hide IsComment, Closes, Listed, Each, AptLines;
    var more := AptMore(apt);
    AptPieces();
    AptPrinted(apt, more);
    AptEnded();
    EntriesAre(apt);
    assert |Entries(apt)| == |apt| && more == [APT_INSTALL] + Entries(apt) + [APT_CLEAN];
    assert forall i :: 0 < i < |more| - 1 ==> more[i] == INDENT + apt[i - 1];
    PrintedIsListed("RUN apt-get update", more);
    AptShown(apt, more);
  }

  lemma AptEnded() ensures Ended(APT_CLEAN) && APT_CLEAN != "" && APT_CLEAN[0] == ' ' && APT_INSTALL != "" && APT_INSTALL[0] == ' ' {
    assert APT_CLEAN[|APT_CLEAN| - 1] == "&& rm -rf /var/lib/apt/lists/*"[29];
    assert APT_CLEAN[0] == "    "[0] && APT_INSTALL[0] == "    "[0];
  }

  lemma AptShown(apt: seq<string>, more: seq<string>)
    requires |more| == |apt| + 2 && more[0] == APT_INSTALL && more[|apt| + 1] == APT_CLEAN
    requires forall i :: 0 < i < |more| - 1 ==> more[i] == INDENT + apt[i - 1]
    requires IsPiece(APT_INSTALL) && IsPiece(APT_CLEAN) && Ended(APT_CLEAN)
    ensures AllShown(more) <==> forall i :: 0 <= i < |apt| ==> Shown(apt[i])
  {
    hide IsComment, Closes;
    forall i | 0 <= i < |apt| ensures IsComment(more[i + 1]) <==> IsComment(apt[i]) { EntryIndented(apt[i]); }
    if AllShown(more) {
      forall i | 0 <= i < |apt| ensures Shown(apt[i]) { assert !IsComment(more[i + 1]); }
    }
    if forall i :: 0 <= i < |apt| ==> Shown(apt[i]) {
      forall i | 0 <= i < |more| ensures !IsComment(more[i]) { assert 0 < i < |more| - 1 ==> Shown(apt[i - 1]); }
    }
  }

  lemma PrintedIsListed(first: string, pieces: Instruction)
    requires pieces != [] && Ended(pieces[|pieces| - 1])
    ensures Printed([first] + pieces) == [first + " \\"] + Listed(pieces)
  {
    assert ([first] + pieces)[1..] == pieces;
    EndedListed(pieces);
  }

  lemma {:induction false} EndedListed(pieces: Instruction)
    requires pieces != [] && Ended(pieces[|pieces| - 1])
    ensures Printed(pieces) == Listed(pieces)
    decreases |pieces|
  {
    if |pieces| > 1 {
      EndedListed(pieces[1..]);
    } else {
      assert pieces == [pieces[0]];
    }
  }

  lemma AptMisread(apt: seq<string>, tail: seq<string>)
    requires exists i :: 0 <= i < |apt| && !Shown(apt[i])
    ensures AptInstructions(apt) != [] && Misreads(AptLines(apt) + tail, AptInstructions(apt))
  {
    hide *;
    AptListed(apt);
    AptAsked(apt);
    assert Begins("RUN apt-get update") by { AptBegins(); }
    ListMisread("RUN apt-get update", AptMore(apt), tail, AptLines(apt), AptInstructions(apt));
  }

  lemma AptBegins() ensures Begins("RUN apt-get update") {
    AptParts();
  }

  /** A base image that continues its line swallows the next instruction. */
  lemma ArgMisread(image: string, tail: seq<string>)
    requires OneLine(image) && IsContinued(image) && Loose(Rest([""] + tail).0)
    ensures Misreads([ArgLine(image), ""] + tail, [[ArgLine(image)]])
  {
    hide IsContinued, ArgLine, Loose;
    ArgIs(image);
    var line, lines := ArgLine(image), [ArgLine(image), ""] + tail;
    assert lines[1..] == [""] + tail && LStrip(line, WHITESPACE) == line;
    PartIsPrefix(line);
    hide Part, Rest, LStrip;
    var text := Rest([""] + tail).0;
    assert Read(lines)[0] == Part(line) + text by { ContinuedRead(line, lines, [""] + tail); }
    SwallowedDiffers(line, Part(line), text);
  }

  lemma ContinuedRead(line: string, lines: seq<string>, tail: seq<string>)
    requires lines == [line] + tail && IsContinued(line) && Begins(line)
    ensures Read(lines) != [] && Read(lines)[0] == Part(line) + Rest(tail).0
  {
    assert lines[1..] == tail && LStrip(line, WHITESPACE) == line;
    hide IsContinued, Part, Rest;
  }

  lemma SwallowedDiffers(line: string, part: string, text: string)
    requires part < line && line[|part|] == '\\' && Loose(text)
    ensures part + text != line
  {
    if text != "" { assert (part + text)[|part|] == text[0]; }
  }

  // ---- the whole file ----

  /** What comes after a blank line, when that is a line of its own. */
  lemma WordNext(line: string, tail: seq<string>)
    requires Word(line) && line[0] != '\\'
    ensures Loose(Rest([""] + ([line] + tail)).0)
  {
    var lines := [line] + tail;
    assert ([""] + lines)[1..] == lines && lines[0] == line;
    EndsHere(line);
    assert LStrip(line, WHITESPACE) == line;
    NothingIsBlank();
    hide IsContinued, LStrip, Part;
  }

  lemma BackIsLoose(l: Letters, p: Pipeline)
    ensures Loose(Rest([""] + Back(l, p)).0)
  {
    hide Rest, CopyLines, Loose, Word;
    FromLayer();
    WordNext("FROM configuration_layer", Back(l, p)[1..]);
    assert Back(l, p)[0] == "FROM configuration_layer";
    assert [Back(l, p)[0]] + Back(l, p)[1..] == Back(l, p);
  }

  lemma SourcesAreLoose(l: Letters, p: Pipeline, tail: seq<string>)
    ensures Loose(Rest([""] + (SourcesPart(l, p.sources) + CONFIGURATION_LINES + tail)).0)
  {
    hide Rest, AllSourceLines, Loose, Word;
    FromAlpine();
    FromBase();
    var lines := SourcesPart(l, p.sources) + CONFIGURATION_LINES + tail;
    var first := if p.sources == [] then FROM_BASE else "FROM alpine:3.20 AS addons_base";
    assert lines[0] == first;
    assert FROM_BASE[0] == "FROM ${ODOO_BASE_IMAGE}"[0];
    WordNext(first, lines[1..]);
    assert [lines[0]] + lines[1..] == lines;
  }

  lemma MisreadDiffers(lines: seq<string>, instructions: seq<Instruction>, more: seq<Instruction>)
    requires instructions != [] && Misreads(lines, instructions)
    ensures Read(lines) != AllGlued(instructions + more)
  {
    hide Read, Glued;
    assert (instructions + more)[0] == instructions[0];
  }

  /** What was read before does not help. */
  lemma MisreadBehind(front: seq<string>, said: seq<Instruction>, lines: seq<string>, instructions: seq<Instruction>)
    requires Reads(front, said) && Read(lines) != AllGlued(instructions)
    ensures Read(front + lines) != AllGlued(said + instructions)
  {
    hide Read, AllGlued;
    assert ReadsBefore(front, said, lines);
    AllGluedConcat(said, instructions);
    var a := AllGlued(said);
    assert (a + Read(lines))[|a|..] == Read(lines) && (a + AllGlued(instructions))[|a|..] == AllGlued(instructions);
  }

  lemma UnfaithfulIsMisread(l: Letters, p: Pipeline)
    requires Sane(l) && OneLined(p) && !Faithful(p)
    ensures Read(Body(l, p)) != AllGlued(Asked(l, p))
  {
    hide Read, AllGlued, Reads, Head, HeadAsked, Back, BackAsked, AptLines, PipLines, AptInstructions, PipInstructions, Shown,
      PipOk, Body, Asked, IsContinued, Misreads, Loose;
    BodyIs(l, p);
    var pip, pipAsked := PipLines(p.pip) + Back(l, p), PipInstructions(p.pip) + BackAsked(l, p);
    var apt, aptAsked := AptLines(p.apt) + pip, AptInstructions(p.apt) + pipAsked;
    if IsContinued(p.baseImage) {
      HeadIsMisread(l, p, apt, aptAsked);
    } else {
      HeadReads(l, p);
      if forall i :: 0 <= i < |p.apt| ==> Shown(p.apt[i]) {
        AptReads(p.apt);
        BackIsLoose(l, p);
        PipMisread(p.pip, Back(l, p));
        MisreadDiffers(pip, PipInstructions(p.pip), BackAsked(l, p));
        MisreadBehind(AptLines(p.apt), AptInstructions(p.apt), pip, pipAsked);
      } else {
        AptMisread(p.apt, pip);
        MisreadDiffers(apt, AptInstructions(p.apt), pipAsked);
      }
      MisreadBehind(Head(l, p), HeadAsked(l, p), apt, aptAsked);
    }
  }

  lemma HeadIsMisread(l: Letters, p: Pipeline, tail: seq<string>, asked: seq<Instruction>)
    requires OneLined(p) && IsContinued(p.baseImage)
    ensures Read(Head(l, p) + tail) != AllGlued(HeadAsked(l, p) + asked)
  {
    hide Read, AllGlued, SourcesPart, AllSources, IsContinued, Misreads, Loose, ArgLine, Rest;
    var arg, more := ArgLine(p.baseImage), SourcesPart(l, p.sources) + CONFIGURATION_LINES + tail;
    SourcesAreLoose(l, p, tail);
    ArgMisread(p.baseImage, more);
    assert Head(l, p) + tail == [arg, ""] + more;
    var rest := HeadAsked(l, p)[1..] + asked;
    assert HeadAsked(l, p) + asked == [[arg]] + rest;
    MisreadDiffers([arg, ""] + more, [[arg]], rest);
  }

  // ---- every line of the buffer is one line of the text ----

  lemma PipOneLines(pip: seq<string>)
    requires OneLines(pip)
    ensures OneLines(PipLines(pip))
  {
    if pip != [] {
      hide RStrip, Each;
      PipLinesAre(pip);
      var lines := Each(pip, INDENT, " \\");
      forall i | 0 <= i < |lines| ensures '\n' !in lines[i] { assert lines[i] == INDENT + pip[i] + " \\" && '\n' !in pip[i]; }
      var last := RStrip(lines[|lines| - 1], CONTINUATION);
      assert '\n' !in last by { assert forall c :: c in last ==> c in lines[|lines| - 1]; }
      assert OneLines(LastStripped(lines));
      assert '\n' !in "RUN pip install" + " \\" by { PipWord(); }
    }
  }

  lemma AptOneLines(apt: seq<string>)
    requires OneLines(apt)
    ensures OneLines(AptLines(apt))
  {
    hide Each, Begins, Ends, IsPiece;
    AptParts();
    AptMoreParts();
    AptInstallOneLine();
    var lines := Each(apt, INDENT, " \\");
    forall i | 0 <= i < |lines| ensures '\n' !in lines[i] { assert lines[i] == INDENT + apt[i] + " \\" && '\n' !in apt[i]; }
  }

  lemma AptInstallOneLine()
    ensures OneLine(APT_INSTALL + " \\") && OneLine(APT_CLEAN) && OneLine("RUN apt-get update" + " \\")
  {
    hide Begins, Ends;
    AptParts();
    AptMoreParts();
  }

  lemma HeadOneLines(l: Letters, p: Pipeline)
    requires Sane(l) && OneLined(p)
    ensures OneLines(Head(l, p))
  {
    hide Begins, Ends, SourcesPart, ArgLine, IsContinued;
    ArgIs(p.baseImage);
    SourcesPartReads(l, p.sources);
    ConfigurationReads();
    hide Read, ReadsBefore;
  }

  lemma BodyOneLines(l: Letters, p: Pipeline)
    requires Sane(l) && OneLined(p)
    ensures OneLines(Body(l, p)) && Body(l, p) != []
  {
    hide Body, Head, Back, AptLines, PipLines, Asked;
    BodyIs(l, p);
    HeadOneLines(l, p);
    AptOneLines(p.apt);
    PipOneLines(p.pip);
    BackReads(l, p);
    BodyIsThere(l, p);
    hide Read, ReadsBefore;
  }

  /** The text says what the pipeline asks for, if and only if the base image does not continue its line, no package is a
      comment, and the last package of `pip` is not blank and ends neither in a space or backslash nor in a single backslash
      with blanks after it. */
  lemma SaysWhatWasAskedIff(l: Letters, p: Pipeline)
    requires Sane(l) && OneLined(p)
    ensures Read(Split(Join([HEADER] + Body(l, p)))) == AllGlued(Asked(l, p)) <==> Faithful(p)
  {
    if Faithful(p) {
      DockerfileSaysWhatWasAsked(l, p);
    } else {
      hide Read, Split, Join, Body, Asked, AllGlued, OneLines, OneLined, Faithful;
      BodyOneLines(l, p);
      TextRead(Body(l, p));
      UnfaithfulIsMisread(l, p);
    }
  }
}
