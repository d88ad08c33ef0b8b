// The command lines as the host receives them, written out.
module CommandText {
  import opened Wrappers
  import opened Text
  import opened Validators
  import opened Commands
  import Base64

  // ---------------------------------------------------------------------------
  // The command lines, written out
  // ---------------------------------------------------------------------------

  lemma JoinOne<T>(a: seq<T>, c: T)
    ensures Join([a], c) == a
  {
  }

  lemma JoinMore<T>(a: seq<T>, rest: seq<seq<T>>, c: T)
    requires rest != []
    ensures Join([a] + rest, c) == a + [c] + Join(rest, c)
  {
    assert ([a] + rest)[1..] == rest;
  }

  /** Words one space apart. */
  function Spaced(words: seq<string>): string
    requires words != []
  {
    if |words| == 1 then words[0] else words[0] + " " + Spaced(words[1..])
  }

  lemma {:induction false} SpacedIsJoin(words: seq<string>)
    requires words != []
    ensures Join(words, ' ') == Spaced(words)
  {
    if |words| > 1 {
      SpacedIsJoin(words[1..]);
    }
  }

  lemma Two(a: string, b: string)
    ensures Spaced([a, b]) == a + " " + b
  {
    assert [a, b][1..] == [b];
  }

  lemma Three(a: string, b: string, c: string)
    ensures Spaced([a, b, c]) == a + " " + b + " " + c
  {
    Two(b, c);
    assert [a, b, c][1..] == [b, c];
    assert a + " " + (b + " " + c) == a + " " + b + " " + c;
  }

  lemma Four(a: string, b: string, c: string, d: string)
    ensures Spaced([a, b, c, d]) == a + " " + b + " " + c + " " + d
  {
    Three(b, c, d);
    assert [a, b, c, d][1..] == [b, c, d];
    assert a + " " + (b + " " + c + " " + d) == a + " " + b + " " + c + " " + d;
  }

  lemma OneCommand(c: Cmd)
    requires |Parts(c)| == 1
    ensures Parts(c)[0] != [] && CommandLine(c) == Spaced(Parts(c)[0])
  {
    JoinElements(Parts(c), "&&");
    JoinOne(Parts(c)[0], "&&");
    SpacedIsJoin(Parts(c)[0]);
    assert Parts(c) == [Parts(c)[0]];
  }

  /** The commands about one path: exactly these texts. */
  lemma PathCommandLines(p: string)
    requires IsRemotePath(p)
    ensures Build(TestDirExists(p)) == Ok("test -d " + p)
    ensures Build(TestFileExists(p)) == Ok("test -f " + p)
    ensures Build(MkdirP(p)) == Ok("mkdir -p " + p)
    ensures Build(CatFile(p)) == Ok("cat " + p)
    ensures Build(RemoveTree(p)) == Ok("rm -rf " + p)
  {
    hide IsRemotePath, Spaced, CommandLine;
    OneCommand(TestDirExists(p));
    OneCommand(TestFileExists(p));
    OneCommand(MkdirP(p));
    OneCommand(CatFile(p));
    OneCommand(RemoveTree(p));
    Three("test", "-d", p);
    Three("test", "-f", p);
    Three("mkdir", "-p", p);
    Two("cat", p);
    Three("rm", "-rf", p);
    assert "test" + " " + "-d" + " " + p == "test -d " + p;
    assert "test" + " " + "-f" + " " + p == "test -f " + p;
    assert "mkdir" + " " + "-p" + " " + p == "mkdir -p " + p;
    assert "cat" + " " + p == "cat " + p;
    assert "rm" + " " + "-rf" + " " + p == "rm -rf " + p;
  }

  lemma CopyCommandLine(s: string, d: string)
    requires IsRemotePath(s) && IsRemotePath(d)
    ensures Build(CopyFile(s, d)) == Ok("cp -a " + s + " " + d)
  {
    hide IsRemotePath, Spaced, CommandLine;
    OneCommand(CopyFile(s, d));
    Four("cp", "-a", s, d);
    assert "cp" + " " + "-a" + " " + s + " " + d == "cp -a " + s + " " + d;
  }

  /** The commands without a path. */
  lemma FixedCommandLines()
    ensures Build(ReadOsRelease) == Ok("cat /etc/os-release")
    ensures Build(CheckDockerPresent) == Ok("command -v docker")
    ensures Build(CheckComposeV2) == Ok("docker compose version")
    ensures Build(CheckComposeV1) == Ok("docker-compose --version")
  {
    hide Spaced, CommandLine;
    OneCommand(ReadOsRelease);
    OneCommand(CheckDockerPresent);
    OneCommand(CheckComposeV2);
    OneCommand(CheckComposeV1);
    Two("cat", "/etc/os-release");
    Three("command", "-v", "docker");
    Three("docker", "compose", "version");
    Two("docker-compose", "--version");
    ReleaseText();
    PresentText();
    V2Text();
    V1Text();
  }

  lemma ReleaseText()
    ensures "cat" + " " + "/etc/os-release" == "cat /etc/os-release"
  {
  }

  lemma PresentText()
    ensures "command" + " " + "-v" + " " + "docker" == "command -v docker"
  {
  }

  lemma V2Text()
    ensures "docker" + " " + "compose" + " " + "version" == "docker compose version"
  {
  }

  lemma V1Text()
    ensures "docker-compose" + " " + "--version" == "docker-compose --version"
  {
  }

  lemma ProbeCommandLine(port: Port)
    ensures Build(TcpProbe(port)) == Ok("bash -c 'exec 3<>/dev/tcp/127.0.0.1/" + Decimal(port) + "' 2>/dev/null")
  {
    hide Spaced, CommandLine, Decimal;
    OneCommand(TcpProbe(port));
    var d := Decimal(port);
    var words := ["bash", "-c", "'exec", "3<>/dev/tcp/127.0.0.1/" + d + "'", "2>/dev/null"];
    assert Parts(TcpProbe(port)) == [words];
    Spaced5(words[0], words[1], words[2], words[3], words[4]);
    ProbeText(d);
  }

  lemma Spaced5(a: string, b: string, c: string, d: string, e: string)
    ensures Spaced([a, b, c, d, e]) == a + " " + (b + " " + c + " " + d + " " + e)
  {
    hide Spaced;
    Four(b, c, d, e);
    SpacedNext(a, [b, c, d, e]);
    assert [a] + [b, c, d, e] == [a, b, c, d, e];
  }

  lemma SpacedNext(a: string, rest: seq<string>)
    requires rest != []
    ensures Spaced([a] + rest) == a + " " + Spaced(rest)
  {
    assert ([a] + rest)[1..] == rest;
  }

  lemma ProbeText(d: string)
    ensures "bash" + " " + ("-c" + " " + "'exec" + " " + ("3<>/dev/tcp/127.0.0.1/" + d + "'") + " " + "2>/dev/null") ==
            "bash -c 'exec 3<>/dev/tcp/127.0.0.1/" + d + "' 2>/dev/null"
  {
    ProbeHead();
    ProbeTail();
    var x, y := "-c" + " " + "'exec" + " ", "3<>/dev/tcp/127.0.0.1/";
    ProbeShape("bash" + " ", x, y, d, "'", " " + "2>/dev/null");
    Regroup(x + (y + d + "'"), " ", "2>/dev/null");
  }

  lemma ProbeShape(a: string, x: string, y: string, d: string, q: string, z: string)
    ensures a + (x + (y + d + q) + z) == (a + x + y) + d + (q + z)
  {
  }

  lemma ProbeHead()
    ensures "bash" + " " + ("-c" + " " + "'exec" + " ") + "3<>/dev/tcp/127.0.0.1/" == "bash -c 'exec 3<>/dev/tcp/127.0.0.1/"
  {
  }

  lemma ProbeTail()
    ensures "'" + (" " + "2>/dev/null") == "' 2>/dev/null"
  {
  }

  lemma TwoCommands(c: Cmd)
    requires |Parts(c)| == 2 && Parts(c)[0] != [] && Parts(c)[1] != []
    ensures CommandLine(c) == Spaced(Parts(c)[0]) + " && " + Spaced(Parts(c)[1])
  {
    JoinElements(Parts(c), "&&");
    var parts := Parts(c);
    var a, b := parts[0], parts[1];
    assert parts == [a] + [b] && CommandLine(c) == Join(Join(parts, "&&"), ' ');
    hide Spaced, Parts, CommandLine, Join;
    JoinMore(a, [b], "&&");
    JoinOne(b, "&&");
    SpacedIsJoin(a + ["&&"] + b);
    SpacedSum(a, "&&", b);
    AndTwo(Spaced(a), Spaced(b));
  }

  lemma AndTwo(x: string, y: string)
    ensures x + " " + "&&" + " " + y == x + " && " + y
  {
    assert " " + "&&" + " " == " && ";
  }

  lemma {:induction false} SpacedSum(a: seq<string>, w: string, b: seq<string>)
    requires a != [] && b != []
    ensures Spaced(a + [w] + b) == Spaced(a) + " " + w + " " + Spaced(b)
    decreases |a|
  {
    var all := a + [w] + b;
    if |a| == 1 {
      assert all == [a[0]] + ([w] + b);
      SpacedNext(w, b);
      SpacedNext(a[0], [w] + b);
      assert a[0] + " " + (w + " " + Spaced(b)) == a[0] + " " + w + " " + Spaced(b);
    } else {
      SpacedSum(a[1..], w, b);
      assert all == [a[0]] + (a[1..] + [w] + b);
      SpacedNext(a[0], a[1..] + [w] + b);
      assert a[0] + " " + (Spaced(a[1..]) + " " + w + " " + Spaced(b)) == Spaced(a) + " " + w + " " + Spaced(b);
    }
  }

  /** The compose commands run inside the install directory. */
  lemma ComposeCommandLines(p: string)
    requires IsRemotePath(p)
    ensures Build(ComposeUp(p)) == Ok("cd " + p + " && docker compose up -d")
    ensures Build(ComposePull(p)) == Ok("cd " + p + " && docker compose pull")
    ensures Build(ComposeConfig(p)) == Ok("cd " + p + " && docker compose config")
  {
    hide IsRemotePath, Spaced, CommandLine;
    TwoCommands(ComposeUp(p));
    TwoCommands(ComposePull(p));
    TwoCommands(ComposeConfig(p));
    Two("cd", p);
    Four("docker", "compose", "up", "-d");
    Three("docker", "compose", "pull");
    Three("docker", "compose", "config");
    ComposeTexts(p);
  }

  lemma ComposeTexts(p: string)
    ensures "cd" + " " + p + " && " + ("docker" + " " + "compose" + " " + "up" + " " + "-d") ==
            "cd " + p + " && docker compose up -d"
    ensures "cd" + " " + p + " && " + ("docker" + " " + "compose" + " " + "pull") == "cd " + p + " && docker compose pull"
    ensures "cd" + " " + p + " && " + ("docker" + " " + "compose" + " " + "config") == "cd " + p + " && docker compose config"
  {
    UpText();
    PullText();
    ConfigText();
    InDirectory(p, "docker" + " " + "compose" + " " + "up" + " " + "-d", " && docker compose up -d");
    InDirectory(p, "docker" + " " + "compose" + " " + "pull", " && docker compose pull");
    InDirectory(p, "docker" + " " + "compose" + " " + "config", " && docker compose config");
  }

  lemma InDirectory(p: string, command: string, tail: string)
    requires " && " + command == tail
    ensures "cd" + " " + p + " && " + command == "cd " + p + tail
  {
    CdText();
    Regroup("cd" + " " + p, " && ", command);
  }

  lemma Regroup(a: string, b: string, c: string)
    ensures a + b + c == a + (b + c)
  {
  }

  lemma CdText()
    ensures "cd" + " " == "cd "
  {
  }

  lemma UpText()
    ensures " && " + ("docker" + " " + "compose" + " " + "up" + " " + "-d") == " && docker compose up -d"
  {
  }

  lemma PullText()
    ensures " && " + ("docker" + " " + "compose" + " " + "pull") == " && docker compose pull"
  {
  }

  lemma ConfigText()
    ensures " && " + ("docker" + " " + "compose" + " " + "config") == " && docker compose config"
  {
  }

  /** The read-only ones. */
  lemma StatusCommandLines(p: string)
    requires IsRemotePath(p)
    ensures Build(ComposePs(p)) == Ok("cd " + p + " && docker compose ps --format json")
    ensures Build(ComposeLogs(p)) == Ok("cd " + p + " && docker compose logs --no-color --tail 200")
  {
    hide IsRemotePath, Spaced, CommandLine;
    TwoCommands(ComposePs(p));
    TwoCommands(ComposeLogs(p));
    Two("cd", p);
    Spaced5("docker", "compose", "ps", "--format", "json");
    Spaced5("compose", "logs", "--no-color", "--tail", "200");
    SpacedNext("docker", ["compose", "logs", "--no-color", "--tail", "200"]);
    assert ["docker"] + ["compose", "logs", "--no-color", "--tail", "200"] ==
           ["docker", "compose", "logs", "--no-color", "--tail", "200"];
    StatusTexts(p);
  }

  lemma StatusTexts(p: string)
    ensures "cd" + " " + p + " && " + ("docker" + " " + ("compose" + " " + "ps" + " " + "--format" + " " + "json")) ==
            "cd " + p + " && docker compose ps --format json"
    ensures "cd" + " " + p + " && " +
            ("docker" + " " + ("compose" + " " + ("logs" + " " + "--no-color" + " " + "--tail" + " " + "200"))) ==
            "cd " + p + " && docker compose logs --no-color --tail 200"
  {
    PsText();
    LogsText();
    InDirectory(p, "docker" + " " + ("compose" + " " + "ps" + " " + "--format" + " " + "json"),
                " && docker compose ps --format json");
    InDirectory(p, "docker" + " " + ("compose" + " " + ("logs" + " " + "--no-color" + " " + "--tail" + " " + "200")),
                " && docker compose logs --no-color --tail 200");
  }

  lemma PsText()
    ensures " && " + ("docker" + " " + ("compose" + " " + "ps" + " " + "--format" + " " + "json")) ==
            " && docker compose ps --format json"
  {
  }

  lemma LogsText()
    ensures " && " + ("docker" + " " + ("compose" + " " + ("logs" + " " + "--no-color" + " " + "--tail" + " " + "200"))) ==
            " && docker compose logs --no-color --tail 200"
  {
    LogsWords();
    LogsHead();
    TailShape(" && ", "docker" + " ", "compose" + " ", "logs --no-color --tail 200");
  }

  lemma LogsWords()
    ensures "logs" + " " + "--no-color" + " " + "--tail" + " " + "200" == "logs --no-color --tail 200"
  {
  }

  lemma LogsHead()
    ensures " && " + ("docker" + " ") + ("compose" + " ") + "logs --no-color --tail 200" ==
            " && docker compose logs --no-color --tail 200"
  {
  }

  /** The listing of the collector. */
  lemma FindCommandLine(p: string)
    requires IsRemotePath(p)
    ensures Build(FindBackups(p)) ==
            Ok("find " + p + (" -mindepth 1 -maxdepth 1 -type " + "d -name 'pre-update-*' -printf " + "'%T@\\t%p\\n'"))
  {
    hide IsRemotePath, Spaced, CommandLine;
    OneCommand(FindBackups(p));
    SpacedSum(["find"], p, FIND_TAIL);
    assert ["find"] + [p] + FIND_TAIL == ["find", p] + FIND_TAIL;
    OneWord("find");
    FindTail();
    FindText();
    Regroup("find" + " " + p, " ", Spaced(FIND_TAIL));
  }

  lemma OneWord(w: string)
    ensures Spaced([w]) == w
  {
  }

  lemma FindText()
    ensures "find" + " " == "find "
  {
  }

  lemma FindTail()
    ensures " " + Spaced(FIND_TAIL) == " -mindepth 1 -maxdepth 1 -type " + "d -name 'pre-update-*' -printf " + "'%T@\\t%p\\n'"
  {
    hide Spaced;
    var a, b := ["-mindepth", "1", "-maxdepth", "1"], ["d", "-name", "'pre-update-*'", "-printf", "'%T@\\t%p\\n'"];
    Four("-mindepth", "1", "-maxdepth", "1");
    Spaced5("d", "-name", "'pre-update-*'", "-printf", "'%T@\\t%p\\n'");
    SpacedSum(a, "-type", b);
    assert FIND_TAIL == a + ["-type"] + b;
    DepthText();
    NameText();
    TailText();
    var x := "-mindepth" + " " + "1" + " " + "-maxdepth" + " " + "1";
    var y := "d" + " " + ("-name" + " " + "'pre-update-*'" + " " + "-printf" + " " + "'%T@\\t%p\\n'");
    assert x == "-mindepth 1 -maxdepth 1" && y == "d -name 'pre-update-*' -printf " + "'%T@\\t%p\\n'";
  }

  lemma DepthText()
    ensures "-mindepth" + " " + "1" + " " + "-maxdepth" + " " + "1" == "-mindepth 1 -maxdepth 1"
  {
  }

  lemma NameText()
    ensures "d" + " " + ("-name" + " " + "'pre-update-*'" + " " + "-printf" + " " + "'%T@\\t%p\\n'") ==
            "d -name 'pre-update-*' -printf " + "'%T@\\t%p\\n'"
  {
    NameWords();
    Regroup("d" + " ", "-name" + " " + "'pre-update-*'" + " " + "-printf" + " ", "'%T@\\t%p\\n'");
  }

  lemma NameWords()
    ensures "d" + " " + ("-name" + " " + "'pre-update-*'" + " " + "-printf" + " ") == "d -name 'pre-update-*' -printf "
  {
  }

  lemma TailText()
    ensures " " + ("-mindepth 1 -maxdepth 1" + " " + "-type" + " " + ("d -name 'pre-update-*' -printf " + "'%T@\\t%p\\n'")) ==
            " -mindepth 1 -maxdepth 1 -type " + "d -name 'pre-update-*' -printf " + "'%T@\\t%p\\n'"
  {
    TypeText();
    TailShape(" ", "-mindepth 1 -maxdepth 1" + " " + "-type" + " ", "d -name 'pre-update-*' -printf ", "'%T@\\t%p\\n'");
  }

  lemma TailShape(a: string, b: string, c: string, d: string)
    ensures a + (b + (c + d)) == a + b + c + d
  {
  }

  lemma TypeText()
    ensures " " + ("-mindepth 1 -maxdepth 1" + " " + "-type" + " ") == " -mindepth 1 -maxdepth 1 -type "
  {
  }

  /** A file is written as base64 text through a temporary file beside it. */
  lemma WriteCommandLine(p: string, content: Bytes)
    requires IsRemotePath(p)
    ensures Build(WriteFile(p, content)) ==
            Ok("printf %s " + Base64.Encode(content) + " | base64 -d > " + p + ".rustmote-tmp"
               + " && mv " + p + ".rustmote-tmp " + p + " && chmod 0644 " + p)
  {
    hide IsRemotePath, Spaced, CommandLine;
    var e, tmp := Base64.Encode(content), p + ".rustmote-tmp";
    ThreeCommands(WriteFile(p, content));
    Three("printf", "%s", e);
    Four("base64", "-d", ">", tmp);
    SpacedSum(["printf", "%s", e], "|", ["base64", "-d", ">", tmp]);
    assert ["printf", "%s", e] + ["|"] + ["base64", "-d", ">", tmp] == ["printf", "%s", e, "|", "base64", "-d", ">", tmp];
    Three("mv", tmp, p);
    Three("chmod", "0644", p);
    WriteText(p, e);
  }

  lemma ThreeCommands(c: Cmd)
    requires |Parts(c)| == 3 && forall i :: 0 <= i < 3 ==> Parts(c)[i] != []
    ensures CommandLine(c) == Spaced(Parts(c)[0]) + " && " + Spaced(Parts(c)[1]) + " && " + Spaced(Parts(c)[2])
  {
    JoinElements(Parts(c), "&&");
    hide Spaced;
    var x, y, z := Parts(c)[0], Parts(c)[1], Parts(c)[2];
    assert Parts(c) == [x] + ([y] + [z]);
    JoinMore(x, [y] + [z], "&&");
    JoinMore(y, [z], "&&");
    JoinOne(z, "&&");
    var tail := y + ["&&"] + z;
    assert Join(Parts(c), "&&") == x + ["&&"] + tail;
    SpacedIsJoin(x + ["&&"] + tail);
    SpacedSum(x, "&&", tail);
    SpacedSum(y, "&&", z);
    AndText(Spaced(x), Spaced(y), Spaced(z));
  }

  lemma AndText(x: string, y: string, z: string)
    ensures x + " " + "&&" + " " + (y + " " + "&&" + " " + z) == x + " && " + y + " && " + z
  {
    assert " " + "&&" + " " == " && ";
  }

  lemma WriteText(p: string, e: string)
    ensures "printf" + " " + "%s" + " " + e + " " + "|" + " " + ("base64" + " " + "-d" + " " + ">" + " " + (p + ".rustmote-tmp"))
            + " && " + ("mv" + " " + (p + ".rustmote-tmp") + " " + p) + " && " + ("chmod" + " " + "0644" + " " + p)
            == "printf %s " + e + " | base64 -d > " + p + ".rustmote-tmp"
               + " && mv " + p + ".rustmote-tmp " + p + " && chmod 0644 " + p
  {
    PrintfText();
    PipeText();
    MoveText();
    var t := ".rustmote-tmp";
    WriteShape("printf" + " " + "%s" + " ", e, " " + "|" + " ", "base64" + " " + "-d" + " " + ">" + " ", p, t, " && ",
               "mv" + " ", " ", "chmod" + " " + "0644" + " ");
  }

  lemma WriteShape(a: string, e: string, b: string, c: string, p: string, t: string, d: string, m: string, x: string, h: string)
    ensures a + e + b + (c + (p + t)) + d + (m + (p + t) + x + p) + d + (h + p) ==
            a + e + (b + c) + p + t + (d + m) + p + (t + x) + p + (d + h) + p
  {
  }

  lemma PrintfText()
    ensures "printf" + " " + "%s" + " " == "printf %s "
  {
  }

  lemma PipeText()
    ensures (" " + "|" + " ") + ("base64" + " " + "-d" + " " + ">" + " ") == " | base64 -d > "
  {
  }

  lemma MoveText()
    ensures " && " + ("mv" + " ") == " && mv " && ".rustmote-tmp" + " " == ".rustmote-tmp "
    ensures " && " + ("chmod" + " " + "0644" + " ") == " && chmod 0644 "
  {
  }
}
