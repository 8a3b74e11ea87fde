/** The words of the rendered lines: a line is taken apart at its blanks, written apart from the printer that puts it
    together. */
module DockerfileWords {
  import opened Text
  import opened Dockerfile

  // ---- words ----

  /** The words of a line. */
  function Words(s: string): (r: seq<string>)
    ensures s != "" && s[0] != ' ' ==> r != []
  {
    if s == "" then []
    else if s[0] == ' ' then Words(s[1..])
    else if |s| == 1 || s[1] == ' ' then [[s[0]]] + Words(s[1..])
    else var rest := Words(s[1..]); [[s[0]] + rest[0]] + rest[1..]
  }

  predicate IsWord(s: string) {
    s != "" && ' ' !in s
  }

  lemma {:induction false} OneWord(w: string)
    requires IsWord(w)
    ensures Words(w) == [w]
  {
    assert w == [w[0]] + w[1..];
    if |w| > 1 {
      OneWord(w[1..]);
    } else {
      assert Words(w[1..]) == [] && w == [w[0]];
    }
  }

  lemma {:induction false} WordsAt(a: string, b: string)
    ensures Words(a + " " + b) == Words(a) + Words(b)
  {
    var s := a + " " + b;
    if a == "" {
      assert s[1..] == b;
    } else {
      assert s[0] == a[0] && s[1..] == a[1..] + " " + b;
      assert |a| > 1 ==> s[1] == a[1];
      WordsAt(a[1..], b);
    }
  }

  lemma OneMore(line: string, words: seq<string>, w: string, longer: string)
    requires Words(line) == words && IsWord(w) && longer == line + " " + w
    ensures Words(longer) == words + [w]
  {
    OneWord(w);
    WordsAt(line, w);
  }

  /** Blanks in front make no words. */
  lemma {:induction false} BlanksInFront(blanks: string, s: string)
    requires forall i :: 0 <= i < |blanks| ==> blanks[i] == ' '
    ensures Words(blanks + s) == Words(s)
  {
    if blanks == "" {
      assert blanks + s == s;
    } else {
      assert (blanks + s)[1..] == blanks[1..] + s;
      BlanksInFront(blanks[1..], s);
    }
  }

  function AllWords(pieces: seq<string>): seq<string> {
    if pieces == [] then [] else Words(pieces[0]) + AllWords(pieces[1..])
  }

  lemma {:induction false} WordsGlued(pieces: Instruction)
    ensures Words(Glued(pieces)) == AllWords(pieces)
  {
    if |pieces| > 1 {
      WordsAt(pieces[0], Glued(pieces[1..]));
      WordsGlued(pieces[1..]);
    } else if |pieces| == 1 {
      assert AllWords(pieces) == Words(pieces[0]) + AllWords(pieces[1..]) && AllWords(pieces[1..]) == [];
    }
  }

  /** Where the addons of a source are gathered, and where it is checked out. */
  const GATHERED: string := "/tmp/extra_addons/"
  const CHECKOUT: string := "/tmp/src/"

  // ---- the words of the fixed lines ----

  lemma TwoWords(a: string, b: string)
    requires IsWord(a) && IsWord(b)
    ensures Words(a + " " + b) == [a, b]
  {
    hide Words, IsWord;
    OneWord(a);
    OneWord(b);
    WordsAt(a, b);
  }

  lemma ThreeWords(a: string, b: string, c: string)
    requires IsWord(a) && IsWord(b) && IsWord(c)
    ensures Words(a + " " + b + " " + c) == [a, b, c]
  {
    hide Words, IsWord;
    TwoWords(a, b);
    OneWord(c);
    WordsAt(a + " " + b, c);
  }

  lemma FourWords(a: string, b: string, c: string, d: string)
    requires IsWord(a) && IsWord(b) && IsWord(c) && IsWord(d)
    ensures Words(a + " " + b + " " + c + " " + d) == [a, b, c, d]
  {
    hide Words, IsWord;
    ThreeWords(a, b, c);
    OneWord(d);
    WordsAt(a + " " + b + " " + c, d);
  }

  /** A line with two more words, given the text between them. */
  lemma TwoMore(line: string, words: seq<string>, opening: string, a: string, tail: string, b: string)
    requires Words(line) == words && IsWord(a) && IsWord(b) && opening == line + " " && tail == " " + b
    ensures Words(opening + a + tail) == words + [a, b]
  {
    hide Words;
    OneMore(line, words, a, line + " " + a);
    OneMore(line + " " + a, words + [a], b, line + " " + a + " " + b);
    assert opening + a + tail == line + " " + a + " " + b;
  }

  lemma Indented(line: string)
    ensures Words("    " + line) == Words(line)
  {
    BlanksInFront("    ", line);
  }

  lemma ApkFront() ensures Words("RUN apk add") == ["RUN", "apk", "add"] {
    hide Words;
    OneWord("RUN");
    OneMore("RUN", ["RUN"], "apk", "RUN apk");
    OneMore("RUN apk", ["RUN", "apk"], "add", "RUN apk add");
  }

  lemma ApkParts()
    ensures IsWord("--no-cache") && IsWord("git") && "RUN apk add --no-cache git" == "RUN apk add " + "--no-cache" + " git"
    ensures "RUN apk add " == "RUN apk add" + " " && " git" == " " + "git"
  {
  }

  lemma ApkWords() ensures Words("RUN apk add --no-cache git") == ["RUN", "apk", "add", "--no-cache", "git"] {
    ApkParts();
    hide Words, IsWord;
    ApkFront();
    TwoMore("RUN apk add", ["RUN", "apk", "add"], "RUN apk add ", "--no-cache", " git", "git");
  }

  lemma MkdirFront() ensures Words("&& mkdir -p") == ["&&", "mkdir", "-p"] {
    hide Words;
    OneWord("&&");
    OneMore("&&", ["&&"], "mkdir", "&& mkdir");
    OneMore("&& mkdir", ["&&", "mkdir"], "-p", "&& mkdir -p");
  }

  lemma MkdirParts()
    ensures IsWord("/tmp/extra_addons") && "&& mkdir -p /tmp/extra_addons" == "&& mkdir -p" + " " + "/tmp/extra_addons"
  {
  }

  lemma MkdirWords() ensures Words("&& mkdir -p /tmp/extra_addons") == ["&&", "mkdir", "-p", "/tmp/extra_addons"] {
    hide Words, IsWord;
    MkdirFront();
    MkdirParts();
    OneMore("&& mkdir -p", ["&&", "mkdir", "-p"], "/tmp/extra_addons", "&& mkdir -p /tmp/extra_addons");
  }

  lemma ArgWords(value: string)
    requires IsWord("ODOO_BASE_IMAGE=" + value)
    ensures Words("ARG ODOO_BASE_IMAGE=" + value) == ["ARG", "ODOO_BASE_IMAGE=" + value]
  {
    hide Words, IsWord;
    assert IsWord("ARG") by { ArgIsWord(); }
    TwoWords("ARG", "ODOO_BASE_IMAGE=" + value);
    assert "ARG" + " " + ("ODOO_BASE_IMAGE=" + value) == "ARG ODOO_BASE_IMAGE=" + value;
  }

  lemma ArgIsWord() ensures IsWord("ARG") && IsWord("FROM") && IsWord("AS") && IsWord("COPY") {}

  lemma StartWords(from: string)
    requires IsWord(from)
    ensures Words("FROM " + from) == ["FROM", from]
  {
    hide Words, IsWord;
    ArgIsWord();
    TwoWords("FROM", from);
    assert "FROM" + " " + from == "FROM " + from;
  }

  lemma StartAsWords(from: string, name: string)
    requires IsWord(from) && IsWord(name)
    ensures Words("FROM " + from + " AS " + name) == ["FROM", from, "AS", name]
  {
    hide Words, IsWord;
    ArgIsWord();
    FourWords("FROM", from, "AS", name);
    assert "FROM" + " " + from + " " + "AS" + " " + name == "FROM " + from + " AS " + name;
  }

  lemma CloneFront()
    ensures Words("RUN git clone --depth 1") == ["RUN", "git", "clone", "--depth", "1"]
    ensures "RUN git clone --depth 1 " == "RUN git clone --depth 1" + " "
  {
    hide Words;
    OneWord("RUN");
    OneMore("RUN", ["RUN"], "git", "RUN git");
    OneMore("RUN git", ["RUN", "git"], "clone", "RUN git clone");
    OneMore("RUN git clone", ["RUN", "git", "clone"], "--depth", "RUN git clone --depth");
    OneMore("RUN git clone --depth", ["RUN", "git", "clone", "--depth"], "1", "RUN git clone --depth 1");
  }

  lemma CloneParts()
    ensures IsWord("--branch") && "--branch " == "--branch" + " " && IsWord("/tmp/src") && " /tmp/src" == " " + "/tmp/src"
  {
  }

  /** The clone, with its fixed parts given by name. */
  lemma CloneWith(opening: string, front: string, words: seq<string>, flagged: string, flag: string, branch: string, repo: string,
                  tail: string, target: string)
    requires Words(front) == words && opening == front + " " && flagged == flag + " " && tail == " " + target
    requires IsWord(flag) && IsWord(repo) && IsWord(target) && (branch != "" ==> IsWord(branch))
    ensures Words(opening + (if branch != "" then flagged + branch + " " else "") + repo + tail)
            == words + (if branch != "" then [flag, branch] else []) + [repo, target]
  {
    hide Words, IsWord;
    if branch == "" {
      TwoMore(front, words, opening, repo, tail, target);
      assert opening + "" + repo + tail == opening + repo + tail;
    } else {
      TwoMore(front, words, opening, flag, " " + branch, branch);
      var line := opening + flag + (" " + branch);
      TwoMore(line, words + [flag, branch], line + " ", repo, tail, target);
      assert opening + (flagged + branch + " ") + repo + tail == line + " " + repo + tail;
    }
  }

  lemma CloneWords(s: Source)
    requires IsWord(s.repo) && (s.branch != "" ==> IsWord(s.branch))
    ensures Words(CloneCommand(s))
            == ["RUN", "git", "clone", "--depth", "1"] + (if s.branch != "" then ["--branch", s.branch] else []) + [s.repo, "/tmp/src"]
  {
    hide Words, IsWord;
    CloneFront();
    CloneParts();
    CloneWith("RUN git clone --depth 1 ", "RUN git clone --depth 1", ["RUN", "git", "clone", "--depth", "1"], "--branch ", "--branch",
              s.branch, s.repo, " /tmp/src", "/tmp/src");
  }

  lemma CopyFront()
    ensures Words("&& cp -a") == ["&&", "cp", "-a"] && "&& cp -a /tmp/src/" == "&& cp -a" + " " + CHECKOUT
  {
    hide Words;
    OneWord("&&");
    OneMore("&&", ["&&"], "cp", "&& cp");
    OneMore("&& cp", ["&&", "cp"], "-a", "&& cp -a");
  }

  lemma GatherParts()
    ensures IsWord(GATHERED) && " /tmp/extra_addons/" == " " + GATHERED && ' ' !in CHECKOUT && CHECKOUT != ""
  {
  }

  lemma ModuleWords(m: string)
    requires ' ' !in m
    ensures Words(MODULE_BEFORE + m + MODULE_AFTER) == ["&&", "cp", "-a", CHECKOUT + m, GATHERED]
  {
    var front := "&& cp -a";
    GatherParts();
    assert IsWord(CHECKOUT + m);
    hide Words, IsWord;
    CopyFront();
    TwoMore(front, ["&&", "cp", "-a"], front + " ", CHECKOUT + m, MODULE_AFTER, GATHERED);
    Indented(front + " " + (CHECKOUT + m) + MODULE_AFTER);
    Regrouped("    ", front + " ", CHECKOUT, m, MODULE_AFTER);
  }

  lemma Regrouped(a: string, b: string, c: string, d: string, e: string)
    ensures a + (b + c) + d + e == a + (b + (c + d) + e)
  {
  }

  lemma LoopFront() ensures Words("&& for m in") == ["&&", "for", "m", "in"] {
    hide Words;
    OneWord("&&");
    OneMore("&&", ["&&"], "for", "&& for");
    OneMore("&& for", ["&&", "for"], "m", "&& for m");
    OneMore("&& for m", ["&&", "for", "m"], "in", "&& for m in");
  }

  lemma LoopBody() ensures Words("do cp -a") == ["do", "cp", "-a"] {
    hide Words;
    OneWord("do");
    OneMore("do", ["do"], "cp", "do cp");
    OneMore("do cp", ["do", "cp"], "-a", "do cp -a");
  }

  lemma LoopParts()
    ensures "&& for m in /tmp/src/*/" == "&& for m in" + " " + "/tmp/src/*/"
    ensures "__manifest__.py; do cp -a" == "__manifest__.py;" + " " + "do cp -a"
    ensures "/tmp/src/*/__manifest__.py;" == "/tmp/src/*/" + "__manifest__.py;"
  {
  }

  lemma LoopWord1() ensures IsWord("/tmp/src/*/__manifest__.py;") {}

  lemma LoopWord2()
    ensures IsWord("\"$(dirname") && IsWord("\"$m\")\"") && " \"$(dirname \"$m\")\"" == " " + "\"$(dirname" + " " + "\"$m\")\""
  {
  }

  lemma LoopWord3()
    ensures IsWord(GATHERED + ";") && IsWord("done") && " /tmp/extra_addons/; done" == " " + (GATHERED + ";") + " " + "done"
  {
  }

  /** The loop, with its words given by name. */
  lemma LoopWith(front: string, a: seq<string>, files: string, body: string, b: seq<string>, x: string, y: string, z: string, end: string)
    requires Words(front) == a && Words(body) == b && IsWord(files) && IsWord(x) && IsWord(y) && IsWord(z) && IsWord(end)
    ensures Words(front + " " + files + " " + body + " " + x + " " + y + " " + z + " " + end) == a + [files] + b + [x, y, z, end]
  {
    hide Words, IsWord;
    var line := front + " " + files;
    OneMore(front, a, files, line);
    WordsAt(line, body);
    line := line + " " + body;
    var words := a + [files] + b;
    OneMore(line, words, x, line + " " + x);
    OneMore(line + " " + x, words + [x], y, line + " " + x + " " + y);
    OneMore(line + " " + x + " " + y, words + [x] + [y], z, line + " " + x + " " + y + " " + z);
    OneMore(line + " " + x + " " + y + " " + z, words + [x] + [y] + [z], end, line + " " + x + " " + y + " " + z + " " + end);
  }

  const LOOP: seq<string> :=
    ["&&", "for", "m", "in"] + ["/tmp/src/*/__manifest__.py;"] + ["do", "cp", "-a"]
    + ["\"$(dirname", "\"$m\")\"", GATHERED + ";", "done"]

  lemma LoopWords()
    ensures Words(TAKE_ALL) == LOOP
  {
    LoopWord1();
    LoopWord2();
    LoopWord3();
    hide Words, IsWord;
    LoopFront();
    LoopBody();
    LoopParts();
    var front, files, body, x, y, z, end := "&& for m in", "/tmp/src/*/__manifest__.py;", "do cp -a", "\"$(dirname", "\"$m\")\"",
      GATHERED + ";", "done";
    LoopWith(front, ["&&", "for", "m", "in"], files, body, ["do", "cp", "-a"], x, y, z, end);
    LoopJoined("&& for m in /tmp/src/*/", "__manifest__.py; do cp -a", " \"$(dirname \"$m\")\"", " /tmp/extra_addons/; done",
               front, "/tmp/src/*/", "__manifest__.py;", body, x, y, z, end);
    Indented("&& for m in /tmp/src/*/" + "__manifest__.py; do cp -a" + " \"$(dirname \"$m\")\"" + " /tmp/extra_addons/; done");
  }

  lemma LoopJoined(p: string, q: string, r: string, t: string, front: string, f: string, g: string, body: string, x: string, y: string,
                   z: string, end: string)
    requires p == front + " " + f && q == g + " " + body && r == " " + x + " " + y && t == " " + z + " " + end
    ensures p + q + r + t == front + " " + (f + g) + " " + body + " " + x + " " + y + " " + z + " " + end
  {
  }

  lemma UpdateWords() ensures Words("RUN apt-get update") == ["RUN", "apt-get", "update"] {
    hide Words;
    OneWord("RUN");
    OneMore("RUN", ["RUN"], "apt-get", "RUN apt-get");
    OneMore("RUN apt-get", ["RUN", "apt-get"], "update", "RUN apt-get update");
  }

  lemma InstallFront() ensures Words("&& apt-get install -y") == ["&&", "apt-get", "install", "-y"] {
    hide Words;
    OneWord("&&");
    OneMore("&&", ["&&"], "apt-get", "&& apt-get");
    OneMore("&& apt-get", ["&&", "apt-get"], "install", "&& apt-get install");
    OneMore("&& apt-get install", ["&&", "apt-get", "install"], "-y", "&& apt-get install -y");
  }

  lemma InstallParts()
    ensures IsWord("--no-install-recommends") && " --no-install-recommends" == " " + "--no-install-recommends"
  {
  }

  lemma InstallWords()
    ensures Words(APT_INSTALL) == ["&&", "apt-get", "install", "-y", "--no-install-recommends"]
  {
    hide Words, IsWord;
    InstallFront();
    InstallParts();
    OneMore("&& apt-get install -y", ["&&", "apt-get", "install", "-y"], "--no-install-recommends",
            "&& apt-get install -y" + " --no-install-recommends");
    Indented("&& apt-get install -y" + " --no-install-recommends");
  }

  lemma CleanFront() ensures Words("&& rm -rf") == ["&&", "rm", "-rf"] {
    hide Words;
    OneWord("&&");
    OneMore("&&", ["&&"], "rm", "&& rm");
    OneMore("&& rm", ["&&", "rm"], "-rf", "&& rm -rf");
  }

  lemma CleanParts()
    ensures IsWord("/var/lib/apt/lists/*") && "&& rm -rf /var/lib/apt/lists/*" == "&& rm -rf" + " " + "/var/lib/apt/lists/*"
  {
  }

  lemma CleanWords()
    ensures Words(APT_CLEAN) == ["&&", "rm", "-rf", "/var/lib/apt/lists/*"]
  {
    hide Words, IsWord;
    CleanFront();
    CleanParts();
    OneMore("&& rm -rf", ["&&", "rm", "-rf"], "/var/lib/apt/lists/*", "&& rm -rf /var/lib/apt/lists/*");
    Indented("&& rm -rf /var/lib/apt/lists/*");
  }

  lemma PipWords() ensures Words("RUN pip install") == ["RUN", "pip", "install"] {
    hide Words;
    OneWord("RUN");
    OneMore("RUN", ["RUN"], "pip", "RUN pip");
    OneMore("RUN pip", ["RUN", "pip"], "install", "RUN pip install");
  }

  lemma PackageWords(item: string)
    requires IsWord(item)
    ensures Words("        " + item + "") == [item]
  {
    BlanksInFront("        ", item);
    OneWord(item);
    assert "        " + item + "" == "        " + item;
  }

  lemma CopyWords(from: string, to: string)
    requires IsWord(from) && IsWord(to)
    ensures Words("COPY " + from + " " + to) == ["COPY", from, to]
  {
    hide Words, IsWord;
    ArgIsWord();
    ThreeWords("COPY", from, to);
    assert "COPY" + " " + from + " " + to == "COPY " + from + " " + to;
  }

  lemma VolumeParts()
    ensures IsWord("/volumes/extra_addons/") && " /volumes/extra_addons/" == " " + "/volumes/extra_addons/"
  {
  }

  lemma FromParts(stage: string)
    requires ' ' !in stage
    ensures "COPY --from=" == "COPY" + " " + "--from=" && IsWord("--from=" + stage)
  {
  }

  lemma StageCopyWords(stage: string)
    requires ' ' !in stage
    ensures Words("COPY --from=" + stage + FROM_STAGE_TO_VOLUME) == ["COPY", "--from=" + stage, GATHERED, "/volumes/extra_addons/"]
  {
    FromParts(stage);
    GatherParts();
    VolumeParts();
    ArgIsWord();
    hide Words, IsWord;
    FourWords("COPY", "--from=" + stage, GATHERED, "/volumes/extra_addons/");
    FourJoined("COPY", "--from=", stage, " /tmp/extra_addons/", GATHERED, " /volumes/extra_addons/", "/volumes/extra_addons/",
               "COPY --from=");
  }

  lemma FourJoined(a: string, b: string, s: string, third: string, c: string, fourth: string, d: string, front: string)
    requires third == " " + c && fourth == " " + d && front == a + " " + b
    ensures a + " " + (b + s) + " " + c + " " + d == front + s + (third + fourth)
  {
  }
}
