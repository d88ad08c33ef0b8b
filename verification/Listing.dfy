// The text `find -printf '%T@\t%p\n'` prints, and how the garbage collector reads it.
module Listing {
  import opened Wrappers
  import opened Text
  import opened Validators

  /** One directory entry: its modification time, as whole seconds and printed fraction, and its name. */
  datatype Listed = Listed(mtime: int, fraction: string, name: string)

  /** A backup as the collector sees it. */
  datatype Entry = Entry(epoch: int, path: string)

  const I64_MAX := 0x7fff_ffff_ffff_ffff

  function PrintInt(n: int): string {
    if n < 0 then "-" + Decimal(-n) else Decimal(n)
  }

  /** `str::parse::<i64>()`. */
  function ParseI64(s: string): Option<int> {
    var negative := s != "" && s[0] == '-';
    var digits := if s != "" && (s[0] == '-' || s[0] == '+') then s[1..] else s;
    match ParseNat(digits)
    case None => None
    case Some(n) =>
      var magnitude: int := n;
      if negative && n <= I64_MAX + 1 then Some(-magnitude)
      else if !negative && n <= I64_MAX then Some(magnitude)
      else None
  }

  predicate IsListed(e: Listed) {
    && -I64_MAX - 1 <= e.mtime <= I64_MAX
    && AllDigits(e.fraction)
    && "pre-update-" <= e.name
    && '/' !in e.name && '\n' !in e.name && '\r' !in e.name
  }

  function PathOfEntry(dir: string, name: string): string {
    dir + "/" + name
  }

  function PrintLine(dir: string, e: Listed): string {
    PrintInt(e.mtime) + "." + e.fraction + "\t" + PathOfEntry(dir, e.name)
  }

  function PrintListing(dir: string, es: seq<Listed>): string {
    if es == [] then "" else PrintLine(dir, es[0]) + "\n" + PrintListing(dir, es[1..])
  }

  // ---------------------------------------------------------------------------
  // Reading
  // ---------------------------------------------------------------------------

  function StripReturn(line: string): string {
    if line != "" && line[|line| - 1] == '\r' then line[..|line| - 1] else line
  }

  function StripReturns(lines: seq<string>): seq<string> {
    if lines == [] then [] else [StripReturn(lines[0])] + StripReturns(lines[1..])
  }

  /** `str::lines`: the last line is dropped when it is empty, and "\r\n" ends a line too. */
  function Lines(s: string): seq<string> {
    var parts := Split(s, '\n');
    var last := parts[|parts| - 1];
    StripReturns(parts[..|parts| - 1]) + if last == "" then [] else [last]
  }

  function ParseLine(line: string): Option<Entry> {
    match SplitOnce(line, '\t')
    case None => None
    case Some((ts, path)) =>
      match ParseI64(Split(ts, '.')[0])
      case None => None
      case Some(epoch) => Some(Entry(epoch, path))
  }

  function ParseLines(lines: seq<string>): seq<Entry> {
    if lines == [] then []
    else
      match ParseLine(lines[0])
      case None => ParseLines(lines[1..])
      case Some(e) => [e] + ParseLines(lines[1..])
  }

  function ParseListing(s: string): seq<Entry> {
    ParseLines(Lines(s))
  }

  function Entries(dir: string, es: seq<Listed>): (r: seq<Entry>)
    ensures |r| == |es|
    ensures forall i :: 0 <= i < |es| ==> r[i] == Entry(es[i].mtime, PathOfEntry(dir, es[i].name))
  {
    if es == [] then [] else [Entry(es[0].mtime, PathOfEntry(dir, es[0].name))] + Entries(dir, es[1..])
  }

  // ---------------------------------------------------------------------------
  // Reading inverts printing
  // ---------------------------------------------------------------------------

  lemma PrintIntRoundTrip(n: int)
    requires -I64_MAX - 1 <= n <= I64_MAX
    ensures ParseI64(PrintInt(n)) == Some(n)
    ensures forall c :: c in PrintInt(n) ==> IsDigit(c) || c == '-'
  {
    var m: nat := if n < 0 then -n else n;
    DecimalRoundTrip(m);
    assert ParseNat(Decimal(m)) == Some(m) && Decimal(m) != "" && IsDigit(Decimal(m)[0]);
    hide Decimal, ParseNat;
    assert ("-" + Decimal(m))[1..] == Decimal(m);
    assert forall c :: c in Decimal(m) ==> IsDigit(c);
  }

  lemma LineRoundTrip(dir: string, e: Listed)
    requires IsListed(e)
    ensures ParseLine(PrintLine(dir, e)) == Some(Entry(e.mtime, PathOfEntry(dir, e.name)))
  {
    var ts, path := PrintInt(e.mtime) + "." + e.fraction, PathOfEntry(dir, e.name);
    PrintIntRoundTrip(e.mtime);
    assert '\t' !in ts;
    SplitOnceAt(ts, path, '\t');
    assert PrintLine(dir, e) == ts + ['\t'] + path;
    SplitWord(PrintInt(e.mtime), e.fraction, '.');
    assert ts == PrintInt(e.mtime) + ['.'] + e.fraction;
  }

  lemma NotInSum(c: char, a: string, b: string)
    requires c !in a && c !in b
    ensures c !in a + b
  {
  }

  lemma LineIsOneLine(dir: string, e: Listed)
    requires IsListed(e) && '\n' !in dir
    ensures '\n' !in PrintLine(dir, e) && StripReturn(PrintLine(dir, e)) == PrintLine(dir, e)
  {
    hide PrintInt;
    PrintIntRoundTrip(e.mtime);
    var number, path := PrintInt(e.mtime), PathOfEntry(dir, e.name);
    assert '\n' !in number && '\n' !in e.fraction;
    NotInSum('\n', number, ".");
    NotInSum('\n', number + ".", e.fraction);
    NotInSum('\n', number + "." + e.fraction, "\t");
    NotInSum('\n', dir, "/");
    NotInSum('\n', dir + "/", e.name);
    NotInSum('\n', number + "." + e.fraction + "\t", path);
    LastOfSum(number + "." + e.fraction + "\t" + dir + "/", e.name);
    assert number + "." + e.fraction + "\t" + path == number + "." + e.fraction + "\t" + dir + "/" + e.name;
  }

  lemma LastOfSum(a: string, b: string)
    requires b != "" && '\r' !in b
    ensures StripReturn(a + b) == a + b
  {
    assert (a + b)[|a + b| - 1] == b[|b| - 1];
  }

  lemma {:induction false} ListingSplits(dir: string, es: seq<Listed>)
    requires (forall e :: e in es ==> IsListed(e)) && '\n' !in dir
    ensures var parts := Split(PrintListing(dir, es), '\n');
            && |parts| == |es| + 1 && parts[|es|] == ""
            && forall i :: 0 <= i < |es| ==> parts[i] == PrintLine(dir, es[i])
  {
    if es != [] {
      LineIsOneLine(dir, es[0]);
      ListingSplits(dir, es[1..]);
      SplitWord(PrintLine(dir, es[0]), PrintListing(dir, es[1..]), '\n');
    }
  }

  lemma {:induction false} LinesRoundTrip(dir: string, lines: seq<string>, es: seq<Listed>)
    requires (forall e :: e in es ==> IsListed(e)) && '\n' !in dir
    requires |lines| == |es| && forall i :: 0 <= i < |es| ==> lines[i] == PrintLine(dir, es[i])
    ensures ParseLines(StripReturns(lines)) == Entries(dir, es)
  {
    if es != [] {
      LineIsOneLine(dir, es[0]);
      LineRoundTrip(dir, es[0]);
      assert es[0] in es;
      LinesRoundTrip(dir, lines[1..], es[1..]);
      var rest := StripReturns(lines[1..]);
      assert ([lines[0]] + rest)[1..] == rest;
    }
  }

  /** The collector recovers exactly the listed directories, in the order they were printed. */
  lemma ListingRoundTrip(dir: string, es: seq<Listed>)
    requires (forall e :: e in es ==> IsListed(e)) && '\n' !in dir
    ensures ParseListing(PrintListing(dir, es)) == Entries(dir, es)
  {
    ListingSplits(dir, es);
    var parts := Split(PrintListing(dir, es), '\n');
    LinesRoundTrip(dir, parts[..|es|], es);
    var lines := StripReturns(parts[..|es|]);
    assert lines + [] == lines;
  }

  // ---------------------------------------------------------------------------
  // Other lines
  // ---------------------------------------------------------------------------

  /** A signed 64-bit number as text: digits after an optional sign. */
  predicate IsNumeral(s: string, n: int) {
    && s != ""
    && var d := if s[0] in "+-" then s[1..] else s;
    && d != "" && AllDigits(d) && n == (if s[0] == '-' then -1 else 1) * ValueOf(d)
    && -9223372036854775808 <= n <= 9223372036854775807
  }

  lemma NumeralsParse(s: string, n: int)
    ensures ParseI64(s) == Some(n) <==> IsNumeral(s, n)
  {
  }

  /** A line counts exactly if it has a tab and a number in front of the first dot before the first tab;
      the path is everything behind that tab. */
  lemma LineReads(ts: string, path: string)
    requires '\t' !in ts
    ensures forall e: Entry :: ParseLine(ts + "\t" + path) == Some(e) <==> e.path == path && IsNumeral(Split(ts, '.')[0], e.epoch)
  {
    SplitOnceAt(ts, path, '\t');
    assert ts + "\t" + path == ts + ['\t'] + path;
    hide ParseI64, IsNumeral;
    forall n
      ensures ParseI64(Split(ts, '.')[0]) == Some(n) <==> IsNumeral(Split(ts, '.')[0], n)
    {
      NumeralsParse(Split(ts, '.')[0], n);
    }
  }

  lemma {:induction false} NoTabNoLine(line: string)
    requires '\t' !in line
    ensures ParseLine(line) == None
  {
    NoSplit(line);
  }

  lemma {:induction false} NoSplit(line: string)
    requires '\t' !in line
    ensures SplitOnce(line, '\t') == None
  {
    if line != "" {
      NoSplit(line[1..]);
    }
  }

  /** Lines that do not count are skipped, and the others keep their order. */
  lemma {:induction false} LinesAdd(a: seq<string>, b: seq<string>)
    ensures ParseLines(a + b) == ParseLines(a) + ParseLines(b)
  {
    hide ParseLine;
    if a == [] {
      assert a + b == b;
    } else {
      LinesAdd(a[1..], b);
      assert (a + b)[1..] == a[1..] + b && (a + b)[0] == a[0];
    }
  }

  lemma OneLine(line: string)
    ensures ParseLines([line]) == if ParseLine(line).Some? then [ParseLine(line).value] else []
  {
    assert [line][1..] == [];
  }

  /** Lines end with "\n" or "\r\n"; a last line may lack that. */
  lemma LinesSpelled(l: string, rest: string)
    requires '\n' !in l
    ensures Lines(l + "\r\n" + rest) == [l] + Lines(rest)
    ensures l == "" || l[|l| - 1] != '\r' ==> Lines(l + "\n" + rest) == [l] + Lines(rest)
    ensures Lines(l) == if l == "" then [] else [l]
  {
    hide Lines;
    LineStep(l + "\r", rest);
    assert l + "\r" + "\n" + rest == l + "\r\n" + rest;
    assert StripReturn(l + "\r") == l;
    LineStep(l, rest);
    LastLine(l);
  }

  lemma LineStep(l: string, rest: string)
    requires '\n' !in l
    ensures Lines(l + "\n" + rest) == [StripReturn(l)] + Lines(rest)
  {
    hide StripReturn;
    SplitWord(l, rest, '\n');
    assert l + ['\n'] + rest == l + "\n" + rest;
    var parts, more := Split(l + "\n" + rest, '\n'), Split(rest, '\n');
    assert parts == [l] + more && parts[..|parts| - 1] == [l] + more[..|more| - 1];
    assert ([l] + more[..|more| - 1])[1..] == more[..|more| - 1];
  }

  lemma LastLine(l: string)
    requires '\n' !in l
    ensures Lines(l) == if l == "" then [] else [l]
  {
    SplitPlain(l, '\n');
    assert [l][..0] == [];
  }
}
