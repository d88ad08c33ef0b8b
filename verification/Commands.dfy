// The command builders, and a recogniser that reads a command line back the way the remote
// shell does: words separated by spaces, simple commands joined by "&&".
module Commands {
  import opened Wrappers
  import opened Text
  import opened Validators
  import opened Paths
  import Base64

  /** One constructor per builder. */
  datatype Cmd =
    | ReadOsRelease
    | CheckDockerPresent
    | CheckComposeV2
    | CheckComposeV1
    | TestDirExists(path: string)
    | TestFileExists(path: string)
    | MkdirP(path: string)
    | CatFile(path: string)
    | CopyFile(src: string, dst: string)
    | WriteFile(path: string, content: Bytes)
    | ComposeUp(path: string)
    | ComposePull(path: string)
    | ComposeConfig(path: string)
    | ComposePs(path: string)
    | ComposeLogs(path: string)
    | TcpProbe(port: Port)
    | FindBackups(path: string)
    | RemoveTree(path: string)

  const OS_RELEASE := "/etc/os-release"

  const FIND_TAIL := ["-mindepth", "1", "-maxdepth", "1", "-type", "d", "-name", "'pre-update-*'",
                      "-printf", "'%T@\\t%p\\n'"]

  const PROBE_PREFIX := "3<>/dev/tcp/127.0.0.1/"

  /** The simple commands of a builder's command line, each as its words. */
  function Parts(c: Cmd): (parts: seq<seq<string>>)
    ensures parts != []
  {
    match c
    case ReadOsRelease => [["cat", OS_RELEASE]]
    case CheckDockerPresent => [["command", "-v", "docker"]]
    case CheckComposeV2 => [["docker", "compose", "version"]]
    case CheckComposeV1 => [["docker-compose", "--version"]]
    case TestDirExists(p) => [["test", "-d", p]]
    case TestFileExists(p) => [["test", "-f", p]]
    case MkdirP(p) => [["mkdir", "-p", p]]
    case CatFile(p) => [["cat", p]]
    case CopyFile(s, d) => [["cp", "-a", s, d]]
    case WriteFile(p, content) =>
      [["printf", "%s", Base64.Encode(content), "|", "base64", "-d", ">", p + TMP_SUFFIX],
       ["mv", p + TMP_SUFFIX, p],
       ["chmod", "0644", p]]
    case ComposeUp(p) => [["cd", p], ["docker", "compose", "up", "-d"]]
    case ComposePull(p) => [["cd", p], ["docker", "compose", "pull"]]
    case ComposeConfig(p) => [["cd", p], ["docker", "compose", "config"]]
    case ComposePs(p) => [["cd", p], ["docker", "compose", "ps", "--format", "json"]]
    case ComposeLogs(p) => [["cd", p], ["docker", "compose", "logs", "--no-color", "--tail", "200"]]
    case TcpProbe(port) => [["bash", "-c", "'exec", PROBE_PREFIX + Decimal(port) + "'", "2>/dev/null"]]
    case FindBackups(p) => [["find", p] + FIND_TAIL]
    case RemoveTree(p) => [["rm", "-rf", p]]
  }

  /** The command line itself: words one space apart, simple commands joined by "&&". */
  function CommandLine(c: Cmd): string {
    JoinElements(Parts(c), "&&");
    assert Parts(c)[0] != [];
    Join(Join(Parts(c), "&&"), ' ')
  }

  /** Every builder validates its path arguments before it prints anything. */
  function Build(c: Cmd): Result<string> {
    match c
    case ReadOsRelease => Ok(CommandLine(c))
    case CheckDockerPresent => Ok(CommandLine(c))
    case CheckComposeV2 => Ok(CommandLine(c))
    case CheckComposeV1 => Ok(CommandLine(c))
    case TcpProbe(_) => Ok(CommandLine(c))
    case CopyFile(src, dst) =>
      var s :- ValidateRemotePath(src);
      var d :- ValidateRemotePath(dst);
      Ok(CommandLine(CopyFile(s, d)))
    case _ =>
      var p :- ValidateRemotePath(c.path);
      Ok(CommandLine(c))
  }

  predicate Accepts(c: Cmd) {
    match c
    case CopyFile(src, dst) => IsRemotePath(src) && IsRemotePath(dst)
    case ReadOsRelease => true
    case CheckDockerPresent => true
    case CheckComposeV2 => true
    case CheckComposeV1 => true
    case TcpProbe(_) => true
    case _ => IsRemotePath(c.path)
  }

  // ---------------------------------------------------------------------------
  // What the remote shell runs
  // ---------------------------------------------------------------------------

  datatype Prim =
    | DockerPresent
    | ComposeV2
    | ComposeV1
    | TestDir(path: string)
    | TestFile(path: string)
    | Mkdir(path: string)
    | Cat(path: string)
    | Copy(src: string, dst: string)
    | Decode(payload: string, path: string)
    | Move(src: string, dst: string)
    | Chmod(path: string)
    | ChangeDir(path: string)
    | Up
    | Pull
    | Config
    | Ps
    | Logs
    | Probe(port: nat)
    | Find(path: string)
    | Remove(path: string)

  /** The simple commands of a builder's command line, in order. */
  function Script(c: Cmd): (prims: seq<Prim>)
    ensures prims != []
  {
    match c
    case ReadOsRelease => [Cat(OS_RELEASE)]
    case CheckDockerPresent => [DockerPresent]
    case CheckComposeV2 => [ComposeV2]
    case CheckComposeV1 => [ComposeV1]
    case TestDirExists(p) => [TestDir(p)]
    case TestFileExists(p) => [TestFile(p)]
    case MkdirP(p) => [Mkdir(p)]
    case CatFile(p) => [Cat(p)]
    case CopyFile(s, d) => [Copy(s, d)]
    case WriteFile(p, content) =>
      [Decode(Base64.Encode(content), p + TMP_SUFFIX), Move(p + TMP_SUFFIX, p), Chmod(p)]
    case ComposeUp(p) => [ChangeDir(p), Up]
    case ComposePull(p) => [ChangeDir(p), Pull]
    case ComposeConfig(p) => [ChangeDir(p), Config]
    case ComposePs(p) => [ChangeDir(p), Ps]
    case ComposeLogs(p) => [ChangeDir(p), Logs]
    case TcpProbe(port) => [Probe(port)]
    case FindBackups(p) => [Find(p)]
    case RemoveTree(p) => [Remove(p)]
  }

  /** A word the shell passes on unchanged. */
  predicate IsPlainWord(w: string) {
    forall x :: x in w ==> IsPathChar(x) || x == '+' || x == '='
  }

  function ParseProbe(word: string): Option<Prim> {
    if |word| > 22 && word[..22] == PROBE_PREFIX && word[|word| - 1] == '\'' then
      match ParseNat(word[22..|word| - 1])
      case None => None
      case Some(n) => Some(Probe(n))
    else None
  }

  function ParseDocker(ws: seq<string>): Option<Prim> {
    if ws == ["version"] then Some(ComposeV2)
    else if ws == ["up", "-d"] then Some(Up)
    else if ws == ["pull"] then Some(Pull)
    else if ws == ["config"] then Some(Config)
    else if ws == ["ps", "--format", "json"] then Some(Ps)
    else if ws == ["logs", "--no-color", "--tail", "200"] then Some(Logs)
    else None
  }

  /** Commands that take one or two operands. */
  function ParseFile(ws: seq<string>): Option<Prim>
    requires |ws| >= 2
  {
    if exists w :: w in ws && !IsPlainWord(w) then None
    else if |ws| == 2 then
      if ws[0] == "cat" then Some(Cat(ws[1]))
      else if ws[0] == "cd" then Some(ChangeDir(ws[1]))
      else None
    else if |ws| == 3 then
      if ws[0] == "test" && ws[1] == "-d" then Some(TestDir(ws[2]))
      else if ws[0] == "test" && ws[1] == "-f" then Some(TestFile(ws[2]))
      else if ws[0] == "mkdir" && ws[1] == "-p" then Some(Mkdir(ws[2]))
      else if ws[0] == "rm" && ws[1] == "-rf" then Some(Remove(ws[2]))
      else if ws[0] == "chmod" && ws[1] == "0644" then Some(Chmod(ws[2]))
      else if ws[0] == "mv" then Some(Move(ws[1], ws[2]))
      else None
    else if |ws| == 4 && ws[0] == "cp" && ws[1] == "-a" then Some(Copy(ws[2], ws[3]))
    else None
  }

  const DECODE_PIPE := ["|", "base64", "-d", ">"]

  function ParseDecode(ws: seq<string>): Option<Prim> {
    if |ws| == 8 && ws[1] == "%s" && ws[3..7] == DECODE_PIPE && IsPlainWord(ws[2]) && IsPlainWord(ws[7])
    then Some(Decode(ws[2], ws[7]))
    else None
  }

  function ParseSimple(ws: seq<string>): Option<Prim> {
    if |ws| < 2 then None
    else if ws[0] == "docker" then (if ws[1] == "compose" then ParseDocker(ws[2..]) else None)
    else if ws[0] == "printf" then ParseDecode(ws)
    else if ws[0] == "bash" then
      (if |ws| == 5 && ws[1..3] == ["-c", "'exec"] && ws[4] == "2>/dev/null" then ParseProbe(ws[3]) else None)
    else if ws[0] == "find" then
      (if ws[2..] == FIND_TAIL && IsPlainWord(ws[1]) then Some(Find(ws[1])) else None)
    else if ws == ["command", "-v", "docker"] then Some(DockerPresent)
    else if ws == ["docker-compose", "--version"] then Some(ComposeV1)
    else ParseFile(ws)
  }

  function ParseParts(parts: seq<seq<string>>): (r: Option<seq<Prim>>)
    ensures r.Some? ==> |r.value| == |parts|
  {
    if parts == [] then Some([])
    else
      var head, tail := ParseSimple(parts[0]), ParseParts(parts[1..]);
      if head.Some? && tail.Some? then Some([head.value] + tail.value) else None
  }

  function Parse(command: string): (r: Option<seq<Prim>>)
    ensures r.Some? ==> r.value != []
  {
    ParseParts(Split(Split(command, ' '), "&&"))
  }

  // ---------------------------------------------------------------------------
  // The recogniser inverts every builder
  // ---------------------------------------------------------------------------

  /** A word that neither splits nor means anything to the shell. */
  predicate IsOperand(w: string) {
    ' ' !in w && IsPlainWord(w) && w != "&&"
  }

  lemma PathIsOperand(p: string)
    requires IsRemotePath(p)
    ensures IsOperand(p) && IsOperand(p + TMP_SUFFIX)
  {
    assert p[0] in p;
    assert (p + TMP_SUFFIX)[0] == '/';
    assert forall x :: x in p + TMP_SUFFIX ==> x in p || x in TMP_SUFFIX;
  }

  lemma PayloadIsOperand(content: Bytes)
    ensures IsOperand(Base64.Encode(content))
  {
    Base64.OutputAlphabet(content);
    var s := Base64.Encode(content);
    forall x | x in s
      ensures IsPathChar(x) || x == '+' || x == '='
    {
      var i :| 0 <= i < |s| && s[i] == x;
      assert Base64.InAlphabet(s[i]);
    }
    assert "&&"[0] in "&&";
  }

  predicate IsCleanWord(w: string) {
    ' ' !in w && w != "&&"
  }

  /** The two facts the round trip needs of one simple command: its words survive splitting,
      and the recogniser knows it. */
  predicate Reads(words: seq<string>, prim: Prim) {
    words != [] && (forall w :: w in words ==> IsCleanWord(w)) && ParseSimple(words) == Some(prim)
  }

  lemma ReadsTwo(p: string)
    requires IsOperand(p)
    ensures Reads(["cat", p], Cat(p))
    ensures Reads(["cd", p], ChangeDir(p))
  {
  }

  lemma ReadsTest(p: string)
    requires IsOperand(p)
    ensures Reads(["test", "-d", p], TestDir(p)) && Reads(["test", "-f", p], TestFile(p))
  {
  }

  lemma ReadsChange(p: string)
    requires IsOperand(p)
    ensures Reads(["mkdir", "-p", p], Mkdir(p)) && Reads(["rm", "-rf", p], Remove(p))
  {
  }

  lemma ReadsChmod(p: string)
    requires IsOperand(p)
    ensures Reads(["chmod", "0644", p], Chmod(p))
  {
  }

  lemma ReadsTwoOperands(s: string, d: string)
    requires IsOperand(s) && IsOperand(d)
    ensures Reads(["cp", "-a", s, d], Copy(s, d))
    ensures Reads(["mv", s, d], Move(s, d))
  {
  }

  lemma ReadsDecode(payload: string, p: string)
    requires IsOperand(payload) && IsOperand(p)
    ensures Reads(["printf", "%s", payload, "|", "base64", "-d", ">", p], Decode(payload, p))
  {
    var ws := ["printf", "%s", payload, "|", "base64", "-d", ">", p];
    assert ws[3..7] == DECODE_PIPE;
  }

  lemma ReadsFind(p: string)
    requires IsOperand(p)
    ensures Reads(["find", p] + FIND_TAIL, Find(p))
  {
    FindWords();
    assert IsCleanWord(p);
    hide ParseDocker, ParseDecode, ParseProbe, ParseFile, IsCleanWord;
    assert (["find", p] + FIND_TAIL)[2..] == FIND_TAIL;
  }

  lemma FindWords()
    ensures IsCleanWord("find") && forall w :: w in FIND_TAIL ==> IsCleanWord(w)
  {
  }

  lemma ProbeWord(port: Port)
    ensures var word := PROBE_PREFIX + Decimal(port) + "'";
            ParseProbe(word) == Some(Probe(port)) && ' ' !in word && word[0] == '3'
  {
    DecimalRoundTrip(port);
    var digits := Decimal(port);
    assert ' ' !in digits && digits != "" && ' ' !in PROBE_PREFIX;
    hide Decimal, ParseNat;
    var word := PROBE_PREFIX + digits + "'";
    assert word[..22] == PROBE_PREFIX && word[22..|word| - 1] == digits && word[|word| - 1] == '\'';
    assert word[0] == PROBE_PREFIX[0] == '3';
    assert ' ' !in "'" && ' ' !in PROBE_PREFIX + digits;
  }

  lemma ReadsProbe(port: Port)
    ensures Reads(["bash", "-c", "'exec", PROBE_PREFIX + Decimal(port) + "'", "2>/dev/null"], Probe(port))
  {
    hide ParseProbe, Decimal;
    ProbeWord(port);
    var word := PROBE_PREFIX + Decimal(port) + "'";
    var ws := ["bash", "-c", "'exec", word, "2>/dev/null"];
    assert word != "&&" && "&&"[0] == '&';
    assert ws[1..3] == ["-c", "'exec"];
  }

  lemma ReadsDocker()
    ensures Reads(["docker", "compose", "version"], ComposeV2)
    ensures Reads(["docker", "compose", "up", "-d"], Up)
    ensures Reads(["docker", "compose", "pull"], Pull)
    ensures Reads(["docker", "compose", "config"], Config)
    ensures Reads(["docker", "compose", "ps", "--format", "json"], Ps)
  {
    hide Reads;
    ReadsDockerStart();
    ReadsDockerShow();
  }

  lemma ReadsDockerStart()
    ensures Reads(["docker", "compose", "up", "-d"], Up)
    ensures Reads(["docker", "compose", "pull"], Pull)
  {
    assert ["docker", "compose", "up", "-d"][2..] == ["up", "-d"];
    assert ["docker", "compose", "pull"][2..] == ["pull"];
  }

  lemma ReadsDockerShow()
    ensures Reads(["docker", "compose", "version"], ComposeV2)
    ensures Reads(["docker", "compose", "config"], Config)
    ensures Reads(["docker", "compose", "ps", "--format", "json"], Ps)
  {
    hide ParseDecode, ParseProbe, ParseFile;
    assert ["docker", "compose", "version"][2..] == ["version"];
    assert ["docker", "compose", "config"][2..] == ["config"];
    assert ["docker", "compose", "ps", "--format", "json"][2..] == ["ps", "--format", "json"];
  }

  lemma ReadsLogs()
    ensures Reads(["docker", "compose", "logs", "--no-color", "--tail", "200"], Logs)
  {
    assert ["docker", "compose", "logs", "--no-color", "--tail", "200"][2..] == ["logs", "--no-color", "--tail", "200"];
  }

  lemma ReadsDockerPresent()
    ensures Reads(["command", "-v", "docker"], DockerPresent)
  {
  }

  lemma ReadsComposeV1()
    ensures Reads(["docker-compose", "--version"], ComposeV1)
  {
  }

  lemma OsReleaseParts()
    ensures Split(OS_RELEASE, '/') == ["", "etc", "os-release"]
  {
    hide Split;
    assert OS_RELEASE == "" + ['/'] + ("etc" + ['/'] + "os-release");
    SplitWord("", "etc" + ['/'] + "os-release", '/');
    SplitWord("etc", "os-release", '/');
    SplitPlain("os-release", '/');
  }

  lemma OsReleaseAccepted()
    ensures IsRemotePath(OS_RELEASE)
  {
    hide Split;
    OsReleaseParts();
    assert |".."| == 2 && |""| == 0 && |"etc"| == 3 && |"os-release"| == 10;
  }

  lemma ReadsOsRelease()
    ensures Reads(["cat", OS_RELEASE], Cat(OS_RELEASE))
  {
    hide *;
    OsReleaseAccepted();
    PathIsOperand(OS_RELEASE);
    ReadsTwo(OS_RELEASE);
  }

  lemma BuildAccepts(c: Cmd)
    ensures Build(c).Ok? <==> Accepts(c)
    ensures Build(c).Ok? ==> Build(c).value == CommandLine(c)
    ensures Build(c).Err? ==> Build(c).error.InvalidRelayPath? && !IsRemotePath(Build(c).error.path)
  {
  }

  predicate AllRead(parts: seq<seq<string>>, prims: seq<Prim>) {
    |parts| == |prims| && forall i :: 0 <= i < |parts| ==> Reads(parts[i], prims[i])
  }

  lemma WriteRead(p: string, content: Bytes)
    requires IsRemotePath(p)
    ensures AllRead(Parts(WriteFile(p, content)), Script(WriteFile(p, content)))
  {
    hide Reads, IsOperand, IsRemotePath;
    PathIsOperand(p);
    PayloadIsOperand(content);
    ReadsDecode(Base64.Encode(content), p + TMP_SUFFIX);
    ReadsTwoOperands(p + TMP_SUFFIX, p);
    ReadsChmod(p);
  }

  lemma OnePathRead(c: Cmd)
    requires c.TestDirExists? || c.TestFileExists? || c.MkdirP? || c.CatFile? || c.RemoveTree? || c.FindBackups?
    requires Accepts(c)
    ensures AllRead(Parts(c), Script(c))
  {
    PathIsOperand(c.path);
    if c.CatFile? {
      ReadsTwo(c.path);
    } else if c.TestDirExists? || c.TestFileExists? {
      ReadsTest(c.path);
    } else if c.FindBackups? {
      ReadsFind(c.path);
    } else {
      ReadsChange(c.path);
    }
  }

  lemma ComposeRead(c: Cmd)
    requires c.ComposeUp? || c.ComposePull? || c.ComposeConfig? || c.ComposePs? || c.ComposeLogs?
    requires Accepts(c)
    ensures AllRead(Parts(c), Script(c))
  {
    hide Reads, IsOperand, IsRemotePath;
    PathIsOperand(c.path);
    ReadsTwo(c.path);
    ReadsDocker();
    ReadsLogs();
  }

  lemma PartsRead(c: Cmd)
    requires Accepts(c)
    ensures AllRead(Parts(c), Script(c))
  {
    if c.CopyFile? {
      PathIsOperand(c.src);
      PathIsOperand(c.dst);
      ReadsTwoOperands(c.src, c.dst);
    } else if c.WriteFile? {
      WriteRead(c.path, c.content);
    } else if c.TcpProbe? {
      ReadsProbe(c.port);
    } else if c.ReadOsRelease? {
      ReadsOsRelease();
    } else if c.CheckDockerPresent? {
      ReadsDockerPresent();
    } else if c.CheckComposeV1? {
      ReadsComposeV1();
    } else if c.CheckComposeV2? {
      ReadsDocker();
    } else if c.ComposeUp? || c.ComposePull? || c.ComposeConfig? || c.ComposePs? || c.ComposeLogs? {
      ComposeRead(c);
    } else {
      OnePathRead(c);
    }
  }

  lemma ParseJoined(parts: seq<seq<string>>, prims: seq<Prim>)
    requires parts != [] && AllRead(parts, prims) && Join(parts, "&&") != []
    ensures Parse(Join(Join(parts, "&&"), ' ')) == Some(prims)
  {
    var words := Join(parts, "&&");
    forall w | w in words
      ensures ' ' !in w
    {
      JoinElements(parts, "&&");
    }
    SplitJoin(words, ' ');
    SplitJoin(parts, "&&");
    ParseAllRead(parts, prims);
  }

  lemma {:induction false} ParseAllRead(parts: seq<seq<string>>, prims: seq<Prim>)
    requires AllRead(parts, prims)
    ensures ParseParts(parts) == Some(prims)
  {
    if parts != [] {
      assert Reads(parts[0], prims[0]);
      forall i | 0 <= i < |parts[1..]|
        ensures Reads(parts[1..][i], prims[1..][i])
      {
        assert Reads(parts[i + 1], prims[i + 1]);
      }
      ParseAllRead(parts[1..], prims[1..]);
      assert prims == [prims[0]] + prims[1..];
    }
  }

  /** Reading a builder's command line back gives exactly the commands it stands for. */
  lemma ParseBuild(c: Cmd)
    requires Accepts(c)
    ensures Build(c).Ok? && Parse(Build(c).value) == Some(Script(c))
  {
    BuildAccepts(c);
    PartsRead(c);
    JoinElements(Parts(c), "&&");
    assert Parts(c)[0] != [];
    ParseJoined(Parts(c), Script(c));
  }

  predicate SameLine(c: Cmd, d: Cmd) {
    || c == d
    || (c == ReadOsRelease && d == CatFile(OS_RELEASE))
    || (d == ReadOsRelease && c == CatFile(OS_RELEASE))
  }

  lemma OsReleaseIsCat()
    ensures Build(ReadOsRelease) == Build(CatFile(OS_RELEASE)) && Build(ReadOsRelease).Ok?
  {
    OsReleaseAccepted();
    hide IsRemotePath;
    assert Parts(ReadOsRelease) == Parts(CatFile(OS_RELEASE));
  }

  /** Two builders print the same line only for the same command and arguments, except that
      reading the OS release is the same line as `cat` of that file. */
  lemma BuildersInjective(c: Cmd, d: Cmd)
    requires Accepts(c) && Accepts(d)
    ensures Build(c) == Build(d) <==> SameLine(c, d)
  {
    hide *;
    if Build(c) == Build(d) {
      ParseBuild(c);
      ParseBuild(d);
      SameScript(c, d);
    }
    if SameLine(c, d) {
      SameLineSameBuild(c, d);
    }
  }

  lemma SameLineSameBuild(c: Cmd, d: Cmd)
    requires SameLine(c, d)
    ensures Build(c) == Build(d)
  {
    hide Build;
    OsReleaseIsCat();
  }

  /** The builder's command among those that print the same line. */
  function Canonical(c: Cmd): Cmd {
    if c.ReadOsRelease? then CatFile(OS_RELEASE) else c
  }

  function OneCommand(prim: Prim): Option<Cmd> {
    match prim
    case DockerPresent => Some(CheckDockerPresent)
    case ComposeV2 => Some(CheckComposeV2)
    case ComposeV1 => Some(CheckComposeV1)
    case TestDir(p) => Some(TestDirExists(p))
    case TestFile(p) => Some(TestFileExists(p))
    case Mkdir(p) => Some(MkdirP(p))
    case Cat(p) => Some(CatFile(p))
    case Copy(s, d) => Some(CopyFile(s, d))
    case Probe(n) => if n < 0x1_0000 then Some(TcpProbe(n)) else None
    case Find(p) => Some(FindBackups(p))
    case Remove(p) => Some(RemoveTree(p))
    case _ => None
  }

  function PairCommand(path: string, prim: Prim): Option<Cmd> {
    match prim
    case Up => Some(ComposeUp(path))
    case Pull => Some(ComposePull(path))
    case Config => Some(ComposeConfig(path))
    case Ps => Some(ComposePs(path))
    case Logs => Some(ComposeLogs(path))
    case _ => None
  }

  function WriteCommand(payload: string, dst: string): Option<Cmd> {
    match Base64.Decode(payload)
    case None => None
    case Some(content) => Some(WriteFile(dst, content))
  }

  /** The builder's command whose script this is. */
  function Unscript(prims: seq<Prim>): Option<Cmd> {
    if |prims| == 1 then OneCommand(prims[0])
    else if |prims| == 2 && prims[0].ChangeDir? then PairCommand(prims[0].path, prims[1])
    else if |prims| == 3 && prims[0].Decode? && prims[1].Move? then WriteCommand(prims[0].payload, prims[1].dst)
    else None
  }

  predicate IsPair(c: Cmd) {
    c.ComposeUp? || c.ComposePull? || c.ComposeConfig? || c.ComposePs? || c.ComposeLogs?
  }

  lemma UnscriptPair(c: Cmd)
    requires IsPair(c)
    ensures Unscript(Script(c)) == Some(c)
  {
    hide OneCommand;
    var a := Script(c);
    assert |a| == 2 && a[0] == ChangeDir(c.path);
  }

  lemma UnscriptWrite(path: string, content: Bytes)
    ensures Unscript(Script(WriteFile(path, content))) == Some(WriteFile(path, content))
  {
    hide OneCommand, PairCommand, WriteCommand;
    WrittenBack(path, content);
    var prims := Script(WriteFile(path, content));
    assert |prims| == 3 && prims[0] == Decode(Base64.Encode(content), path + TMP_SUFFIX);
    assert prims[1] == Move(path + TMP_SUFFIX, path);
  }

  lemma WrittenBack(path: string, content: Bytes)
    ensures WriteCommand(Base64.Encode(content), path) == Some(WriteFile(path, content))
  {
    Base64.RoundTrip(content);
  }

  lemma UnscriptOne(c: Cmd)
    requires !IsPair(c) && !c.WriteFile?
    ensures Unscript(Script(c)) == Some(Canonical(c))
  {
    hide PairCommand;
    assert |Script(c)| == 1;
  }

  /** The script of a command determines it. */
  lemma UnscriptScript(c: Cmd)
    ensures Unscript(Script(c)) == Some(Canonical(c))
  {
    hide Unscript, Script;
    if IsPair(c) {
      UnscriptPair(c);
    } else if c.WriteFile? {
      UnscriptWrite(c.path, c.content);
    } else {
      UnscriptOne(c);
    }
  }

  lemma SameScript(c: Cmd, d: Cmd)
    requires Script(c) == Script(d)
    ensures SameLine(c, d)
  {
    hide Unscript, Script;
    UnscriptScript(c);
    UnscriptScript(d);
  }
}
