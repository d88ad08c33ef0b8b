// Remote paths: how they are joined, where they point, and the timestamped backup name.
module Paths {
  import opened Text
  import opened Validators

  /** What a path names once empty and "." components are dropped. */
  type Location = seq<string>

  function TrimSlashes(s: string): (r: string)
    ensures r == "" || r[|r| - 1] != '/'
  {
    if s != "" && s[|s| - 1] == '/' then TrimSlashes(s[..|s| - 1]) else s
  }

  function PosixJoin(base: string, component: string): string {
    TrimSlashes(base) + "/" + component
  }

  const COMPOSE_FILE := "docker-compose.yml"
  const STATE_FILE := ".rustmote-state.toml"
  const CONFIG_FILE := "compose-config.yml"
  const TMP_SUFFIX := ".rustmote-tmp"

  function ComposePath(install: string): string {
    PosixJoin(install, COMPOSE_FILE)
  }

  function EnvPath(install: string): string {
    PosixJoin(install, ".env")
  }

  function StatePath(install: string): string {
    PosixJoin(install, STATE_FILE)
  }

  function DataPath(install: string): string {
    PosixJoin(install, "data")
  }

  function KeyPath(install: string): string {
    PosixJoin(DataPath(install), "id_ed25519.pub")
  }

  function BackupsPath(install: string): string {
    PosixJoin(install, "backups")
  }

  // ---------------------------------------------------------------------------
  // Timestamps
  // ---------------------------------------------------------------------------

  /** A UTC instant: its epoch second and its civil fields. */
  datatype Instant = Instant(epoch: int, year: int, month: nat, day: nat, hour: nat, minute: nat, second: nat)

  predicate IsCivil(t: Instant) {
    t.month < 100 && t.day < 100 && t.hour < 100 && t.minute < 100 && t.second < 100
  }

  type DateTime = t: Instant | IsCivil(t) witness Instant(0, 1970, 1, 1, 0, 0, 0)

  /** Exactly `width` digits. */
  function Pad(n: nat, width: nat): (s: string)
    ensures |s| == width && AllDigits(s)
  {
    if width == 0 then "" else Pad(n / 10, width - 1) + [Digit(n % 10)]
  }

  /** chrono's `%Y`: four digits for years 0 to 9999, a sign in front of any other. */
  function FormatYear(y: int): string {
    if 0 <= y <= 9999 then Pad(y, 4)
    else
      var n := if y < 0 then -y else y;
      [if y < 0 then '-' else '+'] + if n <= 9999 then Pad(n, 4) else Decimal(n)
  }

  function FormatRest(t: DateTime): string {
    "-" + Pad(t.month, 2) + "-" + Pad(t.day, 2) + "T" + Pad(t.hour, 2)
    + "-" + Pad(t.minute, 2) + "-" + Pad(t.second, 2) + "Z"
  }

  function BackupName(t: DateTime): string {
    "pre-update-" + FormatYear(t.year) + FormatRest(t)
  }

  function BackupDir(install: string, t: DateTime): string {
    PosixJoin(BackupsPath(install), BackupName(t))
  }

  predicate SameSecond(s: DateTime, t: DateTime) {
    && s.year == t.year && s.month == t.month && s.day == t.day
    && s.hour == t.hour && s.minute == t.minute && s.second == t.second
  }

  lemma {:induction false} PadInjective(m: nat, n: nat, width: nat)
    requires Pad(m, width) == Pad(n, width)
    requires m < Power10(width) && n < Power10(width)
    ensures m == n
  {
    if width > 0 {
      var s, t := Pad(m, width), Pad(n, width);
      assert s[..width - 1] == Pad(m / 10, width - 1) && t[..width - 1] == Pad(n / 10, width - 1);
      assert s[width - 1] == Digit(m % 10) && t[width - 1] == Digit(n % 10);
      PadInjective(m / 10, n / 10, width - 1);
    }
  }

  lemma FormatYearInjective(y: int, z: int)
    requires FormatYear(y) == FormatYear(z)
    ensures y == z
  {
    var s, t := FormatYear(y), FormatYear(z);
    assert Power10(4) == 10000 by {
      assert Power10(2) == 100;
    }
    assert IsDigit(s[0]) <==> 0 <= y <= 9999;
    assert IsDigit(t[0]) <==> 0 <= z <= 9999;
    if 0 <= y <= 9999 {
      PadInjective(y, z, 4);
    } else {
      var m, n := if y < 0 then -y else y, if z < 0 then -z else z;
      assert s[1..] == (if m <= 9999 then Pad(m, 4) else Decimal(m));
      assert t[1..] == (if n <= 9999 then Pad(n, 4) else Decimal(n));
      if m <= 9999 && n <= 9999 {
        PadInjective(m, n, 4);
      } else {
        DecimalRoundTrip(m);
        DecimalRoundTrip(n);
        if m > 9999 {
          DecimalLong(m);
        }
        if n > 9999 {
          DecimalLong(n);
        }
      }
    }
  }

  lemma DecimalLong(n: nat)
    requires n > 9999
    ensures |Decimal(n)| > 4
  {
    var d1, d2, d3 := n / 10, n / 100, n / 1000;
    assert d2 == d1 / 10 && d3 == d2 / 10;
    assert |Decimal(d3)| >= 2;
    assert |Decimal(d2)| == |Decimal(d3)| + 1;
    assert |Decimal(d1)| == |Decimal(d2)| + 1;
    assert |Decimal(n)| == |Decimal(d1)| + 1;
  }

  lemma SameParts(head: string, a: string, b: string, c: string, d: string)
    requires |b| == |d| && head + a + b == head + c + d
    ensures a == c && b == d
  {
    var s, t := head + a + b, head + c + d;
    var n := |head| + |a|;
    assert s[|head|..n] == a && s[n..] == b && t[|head|..n] == c && t[n..] == d;
  }

  lemma RestFacts(s: DateTime, t: DateTime)
    ensures |FormatRest(s)| == 16
    ensures SameSecond(s, t) ==> FormatRest(s) == FormatRest(t)
  {
    hide Pad;
  }

  /** Two instants share a backup name exactly when they fall in the same second. */
  lemma BackupNameInjective(s: DateTime, t: DateTime)
    ensures BackupName(s) == BackupName(t) <==> SameSecond(s, t)
  {
    hide FormatYear, FormatRest;
    RestFacts(s, t);
    RestFacts(t, s);
    if BackupName(s) == BackupName(t) {
      SameParts("pre-update-", FormatYear(s.year), FormatRest(s), FormatYear(t.year), FormatRest(t));
      FormatYearInjective(s.year, t.year);
      FormatRestInjective(s, t);
    }
  }

  lemma FormatRestInjective(s: DateTime, t: DateTime)
    requires FormatRest(s) == FormatRest(t)
    ensures s.month == t.month && s.day == t.day && s.hour == t.hour && s.minute == t.minute && s.second == t.second
  {
    RestSpelled(s);
    RestSpelled(t);
  }

  // ---------------------------------------------------------------------------
  // Where a path points, and closure of the allowlist under the derived paths
  // ---------------------------------------------------------------------------

  function Named(parts: seq<string>): Location {
    if parts == [] then []
    else if parts[0] == "" || parts[0] == "." then Named(parts[1..])
    else [parts[0]] + Named(parts[1..])
  }

  function Locate(path: string): Location {
    Named(Split(path, '/'))
  }

  predicate IsName(c: string) {
    c != "" && c != "." && '/' !in c
  }

  lemma NamedFront(x: string, parts: seq<string>)
    ensures Named([x] + parts) == (if x == "" || x == "." then [] else [x]) + Named(parts)
  {
    assert ([x] + parts)[1..] == parts;
  }

  lemma {:induction false} NamedAppend(p: seq<string>, q: seq<string>)
    ensures Named(p + q) == Named(p) + Named(q)
  {
    if p == [] {
      assert p + q == q;
    } else {
      NamedAppend(p[1..], q);
      assert p + q == [p[0]] + (p[1..] + q) && p == [p[0]] + p[1..];
      hide Named;
      NamedFront(p[0], p[1..] + q);
      NamedFront(p[0], p[1..]);
    }
  }

  lemma LocateUnder(dir: string, name: string)
    requires IsName(name)
    ensures Locate(dir + "/" + name) == Locate(dir) + [name]
  {
    SplitAppend(dir, name, '/');
    SplitPlain(name, '/');
    NamedAppend(Split(dir, '/'), [name]);
    assert Named([name]) == [name];
  }

  lemma {:induction false} TrimKeepsLocation(s: string)
    ensures Locate(TrimSlashes(s)) == Locate(s)
    ensures ".." in Split(TrimSlashes(s), '/') <==> ".." in Split(s, '/')
    ensures forall c :: c in s ==> c == '/' || c in TrimSlashes(s)
    ensures TrimSlashes(s) <= s
  {
    if s != "" && s[|s| - 1] == '/' {
      var t := s[..|s| - 1];
      TrimKeepsLocation(t);
      assert s == t + ['/'] + "";
      SplitAppend(t, "", '/');
      SplitPlain("", '/');
      NamedAppend(Split(t, '/'), [""]);
      NamedOne("");
      hide Named, Split;
      assert TrimSlashes(s) == TrimSlashes(t);
      assert Split(s, '/') == Split(t, '/') + [""];
    }
  }

  lemma LocateJoin(base: string, name: string)
    requires IsName(name)
    ensures Locate(PosixJoin(base, name)) == Locate(base) + [name]
    ensures Locate(PosixJoin(base, name) + TMP_SUFFIX) == Locate(base) + [name + TMP_SUFFIX]
  {
    TrimKeepsLocation(base);
    LocateUnder(TrimSlashes(base), name);
    LocateUnder(TrimSlashes(base), name + TMP_SUFFIX);
    assert PosixJoin(base, name) + TMP_SUFFIX == TrimSlashes(base) + "/" + (name + TMP_SUFFIX);
  }

  /** The parts with `b` added to the last one. */
  function WithLast(parts: seq<string>, b: string): (r: seq<string>)
    requires parts != []
    ensures r != []
  {
    parts[..|parts| - 1] + [parts[|parts| - 1] + b]
  }

  lemma PushLast(x: char, c: char, parts: seq<string>, b: string)
    requires parts != []
    ensures PushFront(x, c, WithLast(parts, b)) == WithLast(PushFront(x, c, parts), b)
  {
    var n := |parts| - 1;
    var init, last := parts[..n], parts[n];
    if x == c {
      assert ([[]] + parts)[..n + 1] == [[]] + init;
    } else if n == 0 {
      assert parts == [last] && parts[1..] == [];
      assert [x] + (last + b) == [x] + last + b;
    } else {
      assert (init + [last + b])[1..] == parts[1..n] + [last + b];
      assert parts[1..] == parts[1..n] + [last];
      assert ([[x] + parts[0]] + parts[1..])[..n] == [[x] + parts[0]] + parts[1..n];
    }
  }

  lemma {:induction false} SplitExtend(a: string, b: string)
    requires '/' !in b
    ensures Split(a + b, '/') == WithLast(Split(a, '/'), b)
  {
    if a == "" {
      SplitPlain(b, '/');
      assert a + b == b && "" + b == b;
    } else {
      hide PushFront, WithLast;
      SplitExtend(a[1..], b);
      assert (a + b)[0] == a[0] && (a + b)[1..] == a[1..] + b;
      PushLast(a[0], '/', Split(a[1..], '/'), b);
    }
  }

  lemma LastDiffers(init: Location, a: Location, b: string)
    requires |b| >= |TMP_SUFFIX|
    requires a == [] || a == [b[..|b| - |TMP_SUFFIX|]]
    ensures init + a != init + [b]
  {
    var s, t := init + a, init + [b];
    assert t[|init|] == b;
    assert a != [] ==> s[|init|] == a[0];
  }

  /** The temporary file of a write is never the file itself. */
  lemma TempElsewhere(path: string)
    ensures Locate(path) != Locate(path + TMP_SUFFIX)
  {
    hide Named, Split;
    var p := Split(path, '/');
    var init, last := p[..|p| - 1], p[|p| - 1];
    SplitExtend(path, TMP_SUFFIX);
    assert p == init + [last];
    NamedAppend(init, [last]);
    NamedAppend(init, [last + TMP_SUFFIX]);
    assert (last + TMP_SUFFIX)[..|last|] == last;
    NamedOne(last);
    NamedOne(last + TMP_SUFFIX);
    LastDiffers(Named(init), Named([last]), last + TMP_SUFFIX);
  }

  lemma NamedOne(c: string)
    ensures Named([c]) == if c == "" || c == "." then [] else [c]
  {
    assert [c][1..] == [];
  }

  predicate IsSafeName(c: string) {
    IsName(c) && c != ".." && forall x :: x in c ==> IsPathChar(x)
  }

  /** A derived path is accepted exactly when its base is; the empty base is the one exception. */
  lemma JoinAccepted(base: string, name: string)
    requires IsSafeName(name)
    ensures IsRemotePath(PosixJoin(base, name)) <==> IsRemotePath(base) || base == ""
  {
    var trimmed, joined := TrimSlashes(base), PosixJoin(base, name);
    TrimKeepsLocation(base);
    SplitAppend(trimmed, name, '/');
    SplitPlain(name, '/');
    assert forall c :: c in joined <==> c in trimmed || c == '/' || c in name;
    assert ".." in Split(joined, '/') <==> ".." in Split(trimmed, '/');
    assert joined[0] == '/' <==> trimmed == "" || trimmed[0] == '/';
    if trimmed == "" && base != "" {
      assert base[0] in base;
    }
  }

  predicate IsPlain(s: string) {
    forall i :: 0 <= i < |s| ==> IsPathChar(s[i]) && s[i] != '/'
  }

  lemma PlainSum(a: string, b: string)
    ensures IsPlain(a + b) <==> IsPlain(a) && IsPlain(b)
    ensures '/' in a + b <==> '/' in a || '/' in b
  {
    var s := a + b;
    assert forall i :: 0 <= i < |a| ==> s[i] == a[i];
    assert forall i :: 0 <= i < |b| ==> s[|a| + i] == b[i];
  }

  lemma PlainName(s: string)
    requires |s| > 2
    ensures IsSafeName(s) <==> IsPlain(s)
    ensures IsName(s) <==> '/' !in s
  {
    hide IsPathChar;
  }

  lemma DigitsPlain(s: string)
    requires AllDigits(s)
    ensures IsPlain(s) && '/' !in s
  {
  }

  lemma YearPlain(y: int)
    ensures IsPlain(FormatYear(y)) <==> y <= 9999
    ensures '/' !in FormatYear(y)
  {
    if 0 <= y <= 9999 {
      DigitsPlain(Pad(y, 4));
    } else {
      var n := if y < 0 then -y else y;
      var digits := if n <= 9999 then Pad(n, 4) else Decimal(n);
      DigitsPlain(digits);
      PlainSum([if y < 0 then '-' else '+'], digits);
      assert "+"[0] == '+' && "-"[0] == '-' && !IsPathChar('+');
    }
  }

  lemma RestPlain(t: DateTime)
    ensures IsPlain(FormatRest(t)) && '/' !in FormatRest(t)
  {
    hide Pad;
    var r := FormatRest(t);
    forall i | 0 <= i < 16
      ensures IsPathChar(r[i]) && r[i] != '/'
    {
      assert r[0] == r[3] == r[9] == r[12] == '-' && r[6] == 'T' && r[15] == 'Z';
      assert r[1..3] == Pad(t.month, 2) && r[4..6] == Pad(t.day, 2) && r[7..9] == Pad(t.hour, 2)
             && r[10..12] == Pad(t.minute, 2) && r[13..15] == Pad(t.second, 2);
    }
  }

  lemma NameSafe(t: DateTime)
    ensures IsName(BackupName(t)) && |BackupName(t)| > 2
    ensures IsSafeName(BackupName(t)) <==> t.year <= 9999
    ensures IsPlain(BackupName(t)) <==> t.year <= 9999
  {
    hide FormatYear, FormatRest, IsName, IsPathChar;
    YearPlain(t.year);
    RestPlain(t);
    var y, r := FormatYear(t.year), FormatRest(t);
    DashPlain();
    PlainSum("pre-update-", y);
    PlainSum("pre-update-" + y, r);
    PlainName(BackupName(t));
  }

  lemma DashPlain()
    ensures IsPlain("pre-update-") && '/' !in "pre-update-"
    ensures IsPlain(TMP_SUFFIX) && '/' !in TMP_SUFFIX && IsPlain("") && '/' !in ""
  {
  }

  /** The places the orchestrator derives from an install path; a temporary file beside one
      of them is what a file write goes through. */
  datatype Place =
    | Compose | Env | State | Data | Backups | Key
    | Dir(at: DateTime) | SavedCompose(at: DateTime) | SavedState(at: DateTime) | SavedConfig(at: DateTime)

  predicate IsDated(p: Place) {
    p.Dir? || p.SavedCompose? || p.SavedState? || p.SavedConfig?
  }

  predicate IsSaved(p: Place) {
    p.SavedCompose? || p.SavedState? || p.SavedConfig?
  }

  /** The directory a place sits in, as a path and as the location below the install path. */
  function BaseOf(install: string, p: Place): string {
    if IsSaved(p) then BackupDir(install, p.at)
    else if p.Dir? then BackupsPath(install)
    else if p.Key? then DataPath(install)
    else install
  }

  function ParentOf(p: Place): Location {
    if IsSaved(p) then ["backups", BackupName(p.at)]
    else if p.Dir? then ["backups"]
    else if p.Key? then ["data"]
    else []
  }

  function NameOf(p: Place): string {
    match p
    case Compose => COMPOSE_FILE
    case Env => ".env"
    case State => STATE_FILE
    case Data => "data"
    case Backups => "backups"
    case Key => "id_ed25519.pub"
    case Dir(at) => BackupName(at)
    case SavedCompose(_) => COMPOSE_FILE
    case SavedState(_) => STATE_FILE
    case SavedConfig(_) => CONFIG_FILE
  }

  function Suffix(temp: bool): string {
    if temp then TMP_SUFFIX else ""
  }

  function PathOf(install: string, p: Place, temp: bool): string {
    PosixJoin(BaseOf(install, p), NameOf(p) + Suffix(temp))
  }

  function LocationOf(install: string, p: Place, temp: bool): Location {
    Locate(install) + ParentOf(p) + [NameOf(p) + Suffix(temp)]
  }

  /** The paths of the places are the ones the path helpers compute. */
  lemma HelpersNamePlaces(install: string, at: DateTime)
    ensures PathOf(install, Compose, false) == ComposePath(install)
    ensures PathOf(install, Env, false) == EnvPath(install)
    ensures PathOf(install, State, false) == StatePath(install)
    ensures PathOf(install, Data, false) == DataPath(install)
    ensures PathOf(install, Backups, false) == BackupsPath(install)
    ensures PathOf(install, Key, false) == KeyPath(install)
    ensures PathOf(install, Dir(at), false) == BackupDir(install, at)
    ensures PathOf(install, SavedCompose(at), false) == PosixJoin(BackupDir(install, at), COMPOSE_FILE)
    ensures PathOf(install, SavedState(at), false) == PosixJoin(BackupDir(install, at), STATE_FILE)
    ensures PathOf(install, SavedConfig(at), false) == PosixJoin(BackupDir(install, at), CONFIG_FILE)
  {
    hide TrimSlashes, BackupName, NameOf;
    PathNamed(install, Compose);
    PathNamed(install, Env);
    PathNamed(install, State);
    PathNamed(install, Data);
    PathNamed(install, Backups);
    PathNamed(install, Key);
    PathNamed(install, Dir(at));
    PathNamed(install, SavedCompose(at));
    PathNamed(install, SavedState(at));
    PathNamed(install, SavedConfig(at));
    FixedNames(at);
  }

  lemma PathNamed(install: string, p: Place)
    ensures PathOf(install, p, false) == PosixJoin(BaseOf(install, p), NameOf(p))
  {
    hide TrimSlashes, BaseOf, NameOf;
    assert NameOf(p) + "" == NameOf(p);
  }

  lemma FixedNames(at: DateTime)
    ensures NameOf(Compose) == COMPOSE_FILE && NameOf(Env) == ".env" && NameOf(State) == STATE_FILE
    ensures NameOf(Data) == "data" && NameOf(Backups) == "backups" && NameOf(Key) == "id_ed25519.pub"
    ensures NameOf(Dir(at)) == BackupName(at) && NameOf(SavedCompose(at)) == COMPOSE_FILE
    ensures NameOf(SavedState(at)) == STATE_FILE && NameOf(SavedConfig(at)) == CONFIG_FILE
  {
  }

  lemma TempPath(install: string, p: Place)
    ensures PathOf(install, p, true) == PathOf(install, p, false) + TMP_SUFFIX
  {
    var base := TrimSlashes(BaseOf(install, p)) + "/";
    assert base + (NameOf(p) + TMP_SUFFIX) == base + (NameOf(p) + "") + TMP_SUFFIX;
  }

  predicate SamePlace(p: Place, q: Place) {
    match (p, q)
    case (Dir(s), Dir(t)) => SameSecond(s, t)
    case (SavedCompose(s), SavedCompose(t)) => SameSecond(s, t)
    case (SavedState(s), SavedState(t)) => SameSecond(s, t)
    case (SavedConfig(s), SavedConfig(t)) => SameSecond(s, t)
    case _ => p == q
  }

  lemma BaseLocation(install: string, p: Place)
    ensures Locate(BaseOf(install, p)) == Locate(install) + ParentOf(p)
  {
    if IsSaved(p) {
      BackupDirLocation(install, p.at);
    } else if p.Dir? {
      LocateJoin(install, "backups");
    } else if p.Key? {
      LocateJoin(install, "data");
    }
  }

  lemma BackupDirLocation(install: string, at: DateTime)
    ensures Locate(BackupDir(install, at)) == Locate(install) + ["backups", BackupName(at)]
  {
    NameSafe(at);
    LocateJoin(install, "backups");
    LocateJoin(BackupsPath(install), BackupName(at));
    assert Locate(install) + ["backups"] + [BackupName(at)] == Locate(install) + ["backups", BackupName(at)];
  }

  lemma FixedNamesPlain(p: Place)
    requires !p.Dir?
    ensures IsPlain(NameOf(p)) && '/' !in NameOf(p) && |NameOf(p)| > 2
  {
  }

  lemma NamesSafe(p: Place, temp: bool)
    ensures IsName(NameOf(p) + Suffix(temp))
    ensures IsSafeName(NameOf(p) + Suffix(temp)) <==> !p.Dir? || p.at.year <= 9999
  {
    hide IsPlain, IsName, IsSafeName;
    DashPlain();
    if p.Dir? {
      NameSafe(p.at);
      NoSlashInName(BackupName(p.at));
    } else {
      FixedNamesPlain(p);
    }
    PlainSum(NameOf(p), Suffix(temp));
    PlainName(NameOf(p) + Suffix(temp));
  }

  lemma NoSlashInName(s: string)
    requires IsName(s)
    ensures '/' !in s
  {
  }

  lemma PlaceLocation(install: string, p: Place, temp: bool)
    ensures Locate(PathOf(install, p, temp)) == LocationOf(install, p, temp)
  {
    NamesSafe(p, temp);
    BaseLocation(install, p);
    LocateJoin(BaseOf(install, p), NameOf(p) + Suffix(temp));
  }

  lemma NamesDistinct(p: Place, q: Place, a: bool, b: bool)
    requires NameOf(p) + Suffix(a) == NameOf(q) + Suffix(b)
    ensures a == b && NameOf(p) == NameOf(q)
  {
    hide NameOf;
    var s, t := NameOf(p) + Suffix(a), NameOf(q) + Suffix(b);
    LastCharacter(p);
    LastCharacter(q);
    assert !a ==> s == NameOf(p);
    assert !b ==> t == NameOf(q);
    assert a ==> s[|s| - 3] == 't' && s[|s| - 2] == 'm' && s[..|s| - 13] == NameOf(p);
    assert b ==> t[|t| - 3] == 't' && t[|t| - 2] == 'm' && t[..|t| - 13] == NameOf(q);
  }

  lemma LastCharacter(p: Place)
    ensures |NameOf(p)| >= 4 && (NameOf(p)[|NameOf(p)| - 2] != 'm' || NameOf(p)[|NameOf(p)| - 3] != 't')
  {
    if p.Dir? {
      assert BackupName(p.at)[|BackupName(p.at)| - 2] == FormatRest(p.at)[14];
    }
  }

  lemma SameNameSamePlace(p: Place, q: Place)
    requires ParentOf(p) == ParentOf(q) && NameOf(p) == NameOf(q)
    ensures SamePlace(p, q)
  {
    if IsSaved(p) || IsSaved(q) {
      assert ParentOf(p)[1] == ParentOf(q)[1];
      BackupNameInjective(p.at, q.at);
    } else if p.Dir? && q.Dir? {
      BackupNameInjective(p.at, q.at);
    }
  }

  lemma SamePlaceSameName(p: Place, q: Place)
    requires SamePlace(p, q)
    ensures NameOf(p) == NameOf(q) && ParentOf(p) == ParentOf(q)
  {
    hide BackupName;
    if IsDated(p) {
      BackupNameInjective(p.at, q.at);
    }
  }

  /** No two derived paths name the same place, not even through a temporary file, and backups
      taken in different seconds never share a file. */
  lemma PlacesDistinct(install: string, p: Place, q: Place, a: bool, b: bool)
    ensures Locate(PathOf(install, p, a)) == Locate(PathOf(install, q, b)) <==> a == b && SamePlace(p, q)
  {
    hide NameOf, PathOf, Locate;
    PlaceLocation(install, p, a);
    PlaceLocation(install, q, b);
    if a == b && SamePlace(p, q) {
      SamePlaceSameName(p, q);
    }
    var s, t := LocationOf(install, p, a), LocationOf(install, q, b);
    if s == t {
      LastOfLocation(install, p, a);
      LastOfLocation(install, q, b);
      NamesDistinct(p, q, a, b);
      SameNameSamePlace(p, q);
    }
  }

  lemma LastOfLocation(install: string, p: Place, temp: bool)
    ensures var s := LocationOf(install, p, temp);
            s[|s| - 1] == NameOf(p) + Suffix(temp) && s[|Locate(install)|..|s| - 1] == ParentOf(p)
  {
  }

  /** Path closure: below an accepted install path every derived path is accepted, the dated ones
      exactly up to year 9999 (a later year is printed with a '+'). */
  lemma PlacesAccepted(install: string, p: Place, temp: bool)
    requires IsRemotePath(install)
    ensures IsRemotePath(PathOf(install, p, temp)) <==> !IsDated(p) || p.at.year <= 9999
  {
    BaseAccepted(install, p);
    NamesSafe(p, temp);
    if IsSafeName(NameOf(p) + Suffix(temp)) {
      JoinAccepted(BaseOf(install, p), NameOf(p) + Suffix(temp));
      assert BaseOf(install, p) != "";
    } else {
      PlusRejected(BaseOf(install, p), p.at, Suffix(temp));
    }
  }

  lemma BaseAccepted(install: string, p: Place)
    requires IsRemotePath(install)
    ensures IsRemotePath(BaseOf(install, p)) <==> !IsSaved(p) || p.at.year <= 9999
    ensures BaseOf(install, p) != ""
  {
    JoinAccepted(install, "data");
    JoinAccepted(install, "backups");
    if IsSaved(p) {
      if p.at.year <= 9999 {
        NameSafe(p.at);
        JoinAccepted(BackupsPath(install), BackupName(p.at));
      } else {
        PlusRejected(BackupsPath(install), p.at, "");
        assert BackupName(p.at) + "" == BackupName(p.at);
      }
    }
  }

  lemma PlusRejected(base: string, at: DateTime, sfx: string)
    requires at.year > 9999
    ensures !IsRemotePath(PosixJoin(base, BackupName(at) + sfx))
  {
    var s := PosixJoin(base, BackupName(at) + sfx);
    assert FormatYear(at.year)[0] == '+';
    assert BackupName(at)[11] == '+';
    assert s[|TrimSlashes(base)| + 12] == '+';
    assert '+' in s;
  }

  // ---------------------------------------------------------------------------
  // The paths and names, written out
  // ---------------------------------------------------------------------------

  /** A join ignores slashes at the end of the base. */
  lemma TrailingSlash(base: string, component: string)
    ensures PosixJoin(base + "/", component) == PosixJoin(base, component)
  {
    assert (base + "/")[..|base|] == base;
  }

  lemma JoinPlain(base: string, component: string)
    requires base == "" || base[|base| - 1] != '/'
    ensures PosixJoin(base, component) == base + "/" + component
  {
  }

  lemma JoinTwice(base: string, dir: string, component: string)
    requires base == "" || base[|base| - 1] != '/'
    requires dir != "" && dir[|dir| - 1] != '/'
    ensures PosixJoin(PosixJoin(base, dir), component) == base + "/" + dir + "/" + component
  {
    hide PosixJoin;
    JoinPlain(base, dir);
    var inner := base + "/" + dir;
    assert inner[|inner| - 1] == dir[|dir| - 1];
    JoinPlain(inner, component);
  }

  /** Every path the orchestrator uses, for an install path without a slash at its end. */
  lemma PathsSpelled(install: string, t: DateTime)
    requires install == "" || install[|install| - 1] != '/'
    ensures ComposePath(install) == install + "/" + "docker-compose.yml"
    ensures EnvPath(install) == install + "/" + ".env"
    ensures StatePath(install) == install + "/" + ".rustmote-state.toml"
    ensures DataPath(install) == install + "/" + "data"
    ensures KeyPath(install) == install + "/" + "data" + "/" + "id_ed25519.pub"
    ensures BackupsPath(install) == install + "/" + "backups"
    ensures BackupDir(install, t) == install + "/" + "backups" + "/" + BackupName(t)
  {
    hide PosixJoin, BackupName;
    JoinPlain(install, "docker-compose.yml");
    JoinPlain(install, ".env");
    JoinPlain(install, ".rustmote-state.toml");
    JoinPlain(install, "data");
    JoinPlain(install, "backups");
    JoinTwice(install, "data", "id_ed25519.pub");
    JoinTwice(install, "backups", BackupName(t));
  }

  lemma {:induction false} PadValue(n: nat, width: nat)
    requires n < Power10(width)
    ensures ValueOf(Pad(n, width)) == n
  {
    if width > 0 {
      PadValue(n / 10, width - 1);
      var s := Pad(n, width);
      assert s[..|s| - 1] == Pad(n / 10, width - 1);
    }
  }

  /** The text from `a` to `b` is all digits, of that value. */
  predicate Reads(s: string, a: nat, b: nat, n: nat) {
    a < b <= |s| && AllDigits(s[a..b]) && ValueOf(s[a..b]) == n
  }

  lemma RestSpelled(t: DateTime)
    ensures var r := FormatRest(t);
            && |r| == 16 && r[0] == '-' && r[3] == '-' && r[6] == 'T' && r[9] == '-' && r[12] == '-' && r[15] == 'Z'
            && Reads(r, 1, 3, t.month) && Reads(r, 4, 6, t.day)
            && Reads(r, 7, 9, t.hour) && Reads(r, 10, 12, t.minute) && Reads(r, 13, 15, t.second)
  {
    TwoDigits(t.month);
    TwoDigits(t.day);
    TwoDigits(t.hour);
    TwoDigits(t.minute);
    TwoDigits(t.second);
    hide Pad, ValueOf, AllDigits;
    var a, b, c, d, e := Pad(t.month, 2), Pad(t.day, 2), Pad(t.hour, 2), Pad(t.minute, 2), Pad(t.second, 2);
    RestPieces(a, b, c, d, e);
  }

  lemma TwoDigits(n: nat)
    requires n < 100
    ensures |Pad(n, 2)| == 2 && AllDigits(Pad(n, 2)) && ValueOf(Pad(n, 2)) == n
  {
    assert Power10(2) == 100;
    PadValue(n, 2);
  }

  lemma RestPieces(a: string, b: string, c: string, d: string, e: string)
    requires |a| == |b| == |c| == |d| == |e| == 2
    ensures var r := "-" + a + "-" + b + "T" + c + "-" + d + "-" + e + "Z";
            && |r| == 16 && r[0] == '-' && r[3] == '-' && r[6] == 'T' && r[9] == '-' && r[12] == '-' && r[15] == 'Z'
            && r[1..3] == a && r[4..6] == b && r[7..9] == c && r[10..12] == d && r[13..15] == e
  {
  }

  /** A backup is named by its time, field by field: "pre-update-", four digits for the year, and two for
      the month, the day, the hour, the minute and the second, in that order. */
  lemma BackupNameSpelled(t: DateTime)
    requires 0 <= t.year <= 9999
    ensures var s := BackupName(t);
            && |s| == 31 && s[..11] == "pre-update-" && s[15] == '-' && s[18] == '-' && s[21] == 'T'
            && s[24] == '-' && s[27] == '-' && s[30] == 'Z'
            && Reads(s, 11, 15, t.year) && Reads(s, 16, 18, t.month) && Reads(s, 19, 21, t.day)
            && Reads(s, 22, 24, t.hour) && Reads(s, 25, 27, t.minute) && Reads(s, 28, 30, t.second)
  {
    assert Power10(4) == 10000 by {
      assert Power10(2) == 100;
    }
    PadValue(t.year, 4);
    RestSpelled(t);
    hide Pad, FormatRest, ValueOf;
    var s, r := BackupName(t), FormatRest(t);
    assert s[11..15] == Pad(t.year, 4) && s[15..] == r;
    assert s[16..18] == r[1..3] && s[19..21] == r[4..6];
    assert s[22..24] == r[7..9] && s[25..27] == r[10..12] && s[28..30] == r[13..15];
  }

  /** Outside those years there is a sign in front. */
  lemma SignedYear(t: DateTime)
    requires t.year < 0 || t.year > 9999
    ensures var s := BackupName(t);
            && |s| >= 32 && s[..11] == "pre-update-" && s[11] == (if t.year < 0 then '-' else '+')
            && Reads(s, 12, |s| - 16, if t.year < 0 then -t.year else t.year)
            && s[|s| - 16..] == FormatRest(t)
  {
    var n: nat := if t.year < 0 then -t.year else t.year;
    var digits := if n <= 9999 then Pad(n, 4) else Decimal(n);
    assert Power10(4) == 10000 by {
      assert Power10(2) == 100;
    }
    if n <= 9999 {
      PadValue(n, 4);
    } else {
      DecimalRoundTrip(n);
      DecimalLong(n);
    }
    RestFacts(t, t);
    var sign := if t.year < 0 then '-' else '+';
    assert BackupName(t) == "pre-update-" + ([sign] + digits) + FormatRest(t);
    hide Pad, FormatRest, ValueOf, Decimal, BackupName, AllDigits;
    SignPieces(sign, digits, FormatRest(t));
  }

  lemma SignPieces(sign: char, digits: string, r: string)
    requires |r| == 16
    ensures var s := "pre-update-" + ([sign] + digits) + r;
            && |s| == 28 + |digits| && s[..11] == "pre-update-" && s[11] == sign
            && s[12..|s| - 16] == digits && s[|s| - 16..] == r
  {
  }
}
