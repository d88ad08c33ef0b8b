// The argument allowlists that every command builder applies before concatenation.
module Validators {
  import opened Wrappers
  import opened Text

  predicate IsLower(c: char) {
    'a' <= c <= 'z'
  }

  predicate IsAlphanumeric(c: char) {
    IsLower(c) || 'A' <= c <= 'Z' || IsDigit(c)
  }

  predicate IsPathChar(c: char) {
    IsAlphanumeric(c) || c == '/' || c == '.' || c == '_' || c == '-'
  }

  predicate IsRemotePath(s: string) {
    && s != "" && s[0] == '/'
    && (forall c :: c in s ==> IsPathChar(c))
    && ".." !in Split(s, '/')
  }

  predicate IsSeparator(c: char) {
    c == '/' || c == '.' || c == '-' || c == '_'
  }

  predicate IsRepo(s: string) {
    && 0 < |s| <= 255
    && (forall c :: c in s ==> IsLower(c) || IsDigit(c) || IsSeparator(c))
    && !IsSeparator(s[0]) && !IsSeparator(s[|s| - 1])
    && ".." !in Split(s, '/')
  }

  predicate IsTag(s: string) {
    && 0 < |s| <= 128
    && s[0] != '.' && s[0] != '-'
    && forall c :: c in s ==> IsAlphanumeric(c) || c == '_' || c == '.' || c == '-'
  }

  const DIGEST_PREFIX := "sha256:"

  predicate IsHexDigit(c: char) {
    IsDigit(c) || 'a' <= c <= 'f'
  }

  predicate IsDigest(s: string) {
    && |s| == 71
    && s[..7] == DIGEST_PREFIX
    && forall c :: c in s[7..] ==> IsHexDigit(c)
  }

  function ValidateRemotePath(path: string): Result<string> {
    if IsRemotePath(path) then Ok(path) else Err(InvalidRelayPath(path))
  }

  function ValidateRepo(repo: string): Result<string> {
    if IsRepo(repo) then Ok(repo) else Err(InvalidImageRef(repo))
  }

  function ValidateTag(tag: string): Result<string> {
    if IsTag(tag) then Ok(tag) else Err(InvalidImageRef(tag))
  }

  function ValidateDigest(digest: string): Result<string> {
    if IsDigest(digest) then Ok(digest) else Err(InvalidImageRef(digest))
  }

  /** The `image:` value of a compose file: `repo:tag@digest`. */
  function PinnedImageRef(repo: string, tag: string, digest: string): Result<string> {
    var r :- ValidateRepo(repo);
    var t :- ValidateTag(tag);
    var d :- ValidateDigest(digest);
    Ok(r + ":" + t + "@" + d)
  }

  /** `str::split_once(c)`. */
  function SplitOnce(s: string, c: char): Option<(string, string)> {
    if s == "" then None
    else if s[0] == c then Some(("", s[1..]))
    else
      match SplitOnce(s[1..], c)
      case None => None
      case Some((a, b)) => Some(([s[0]] + a, b))
  }

  lemma {:induction false} SplitOnceAt(a: string, b: string, c: char)
    requires c !in a
    ensures SplitOnce(a + [c] + b, c) == Some((a, b))
  {
    var s := a + [c] + b;
    if a == "" {
      assert s[1..] == b;
    } else {
      assert s[1..] == a[1..] + [c] + b;
      SplitOnceAt(a[1..], b, c);
      assert [a[0]] + a[1..] == a;
    }
  }

  /** An image reference read back at its first ':' and the first '@' after it. */
  function ReadImageRef(s: string): Option<(string, string, string)> {
    match SplitOnce(s, ':')
    case None => None
    case Some((repo, rest)) =>
      match SplitOnce(rest, '@')
      case None => None
      case Some((tag, digest)) => Some((repo, tag, digest))
  }

  /** A reference is built exactly for valid parts, and reading it gives them back. */
  lemma ImageRefRoundTrip(repo: string, tag: string, digest: string)
    ensures PinnedImageRef(repo, tag, digest).Ok? <==> IsRepo(repo) && IsTag(tag) && IsDigest(digest)
    ensures PinnedImageRef(repo, tag, digest).Ok? ==>
              ReadImageRef(PinnedImageRef(repo, tag, digest).value) == Some((repo, tag, digest))
  {
    if IsRepo(repo) && IsTag(tag) && IsDigest(digest) {
      SplitOnceAt(repo, tag + "@" + digest, ':');
      SplitOnceAt(tag, digest, '@');
      assert repo + ":" + tag + "@" + digest == repo + [':'] + (tag + "@" + digest);
    }
  }

  lemma ImageRefInjective(r0: string, t0: string, d0: string, r1: string, t1: string, d1: string)
    requires PinnedImageRef(r0, t0, d0).Ok? && PinnedImageRef(r1, t1, d1).Ok?
    ensures PinnedImageRef(r0, t0, d0) == PinnedImageRef(r1, t1, d1) <==> (r0, t0, d0) == (r1, t1, d1)
  {
    ImageRefRoundTrip(r0, t0, d0);
    ImageRefRoundTrip(r1, t1, d1);
  }

  // ---------------------------------------------------------------------------
  // The allowlists, written out
  // ---------------------------------------------------------------------------

  const LOWER_CASE := "abcdefghijklmnopqrstuvwxyz"
  const UPPER_CASE := "ABCDEFGHIJKLMNOPQRSTUVWXYZ"
  const DIGITS := "0123456789"

  lemma InLower(c: char)
    ensures IsLower(c) <==> c in LOWER_CASE
  {
    if IsLower(c) {
      LowerAt(c as int - 'a' as int);
    }
  }

  lemma LowerAt(i: nat)
    requires i < 26
    ensures LOWER_CASE[i] as int == 'a' as int + i
  {
  }

  lemma InUpper(c: char)
    ensures 'A' <= c <= 'Z' <==> c in UPPER_CASE
  {
    if 'A' <= c <= 'Z' {
      UpperAt(c as int - 'A' as int);
    }
  }

  lemma UpperAt(i: nat)
    requires i < 26
    ensures UPPER_CASE[i] as int == 'A' as int + i
  {
  }

  lemma InDigits(c: char)
    ensures IsDigit(c) <==> c in DIGITS
  {
    if IsDigit(c) {
      var i := c as int - '0' as int;
      assert DIGITS[i] as int == '0' as int + i;
    }
  }

  lemma CharsSpelled(c: char)
    ensures IsPathChar(c) <==> c in LOWER_CASE || c in UPPER_CASE || c in DIGITS || c in "/._-"
    ensures IsLower(c) || IsDigit(c) || IsSeparator(c) <==> c in LOWER_CASE || c in DIGITS || c in "._-/"
    ensures IsAlphanumeric(c) || c == '_' || c == '.' || c == '-' <==>
            c in LOWER_CASE || c in UPPER_CASE || c in DIGITS || c in "_.-"
    ensures IsSeparator(c) <==> c in "/.-_"
  {
    InLower(c);
    InUpper(c);
    InDigits(c);
  }

  lemma HexSpelled(c: char)
    ensures IsHexDigit(c) <==> c in "0123456789abcdef"
  {
    InDigits(c);
    assert c in "0123456789abcdef" <==> c in DIGITS || c in "abcdef" by {
      assert "0123456789abcdef" == DIGITS + "abcdef";
    }
  }

  /** A component ".." at the start, and one after a slash. */
  predicate StartsWithParent(s: string) {
    |s| >= 2 && s[..2] == ".." && (|s| == 2 || s[2] == '/')
  }

  predicate HasParent(s: string) {
    exists i :: 0 <= i < |s| && s[i] == '/' && StartsWithParent(s[i + 1..])
  }

  lemma ParentAfter(s: string)
    requires s != ""
    ensures HasParent(s) <==> HasParent(s[1..]) || (s[0] == '/' && StartsWithParent(s[1..]))
  {
    hide StartsWithParent;
    var t := s[1..];
    if i :| 0 <= i < |s| && s[i] == '/' && StartsWithParent(s[i + 1..]) {
      if i > 0 {
        assert t[i - 1] == s[i] && t[i..] == s[i + 1..];
      }
    }
    if i :| 0 <= i < |t| && t[i] == '/' && StartsWithParent(t[i + 1..]) {
      assert s[i + 1] == t[i] && s[i + 2..] == t[i + 1..];
    }
  }

  lemma {:induction false} ParentParts(s: string)
    ensures Split(s, '/')[0] == ".." <==> StartsWithParent(s)
    ensures ".." in Split(s, '/')[1..] <==> HasParent(s)
  {
    if s != "" {
      var t := s[1..];
      ParentParts(t);
      ParentAfter(s);
      var parts := Split(t, '/');
      if s[0] == '/' {
        assert Split(s, '/')[1..] == parts;
        assert ".." in parts <==> parts[0] == ".." || ".." in parts[1..];
      } else {
        assert Split(s, '/')[1..] == parts[1..];
        FirstParent(s);
      }
    }
  }

  /** The first part is ".." exactly when the text is that or goes on with a slash. */
  lemma FirstParent(s: string)
    requires s != "" && s[0] != '/'
    ensures Split(s, '/')[0] == ".." <==> StartsWithParent(s)
  {
    var t := s[1..];
    assert Split(s, '/')[0] == [s[0]] + Split(t, '/')[0];
    if t != "" {
      var u := t[1..];
      if t[0] == '/' {
        assert Split(t, '/')[0] == "";
      } else {
        assert Split(t, '/')[0] == [t[0]] + Split(u, '/')[0];
        assert s[..2] == [s[0], t[0]];
        assert u != "" ==> u[0] == s[2];
        assert Split(u, '/')[0] == "" <==> u == "" || u[0] == '/';
        assert Split(s, '/')[0] == [s[0], t[0]] + Split(u, '/')[0];
      }
    }
  }

  /** A path is accepted exactly if it is absolute, has only letters, digits and "/._-", and no component
      is "..". */
  lemma RemotePathSpelled(s: string)
    ensures ValidateRemotePath(s) == Ok(s) <==>
            && s != "" && s[0] == '/' && !HasParent(s)
            && forall c :: c in s ==> c in LOWER_CASE || c in UPPER_CASE || c in DIGITS || c in "/._-"
    ensures ValidateRemotePath(s) != Ok(s) ==> ValidateRemotePath(s) == Err(InvalidRelayPath(s))
  {
    hide IsPathChar;
    ParentParts(s);
    forall c
      ensures IsPathChar(c) <==> c in LOWER_CASE || c in UPPER_CASE || c in DIGITS || c in "/._-"
    {
      CharsSpelled(c);
    }
    if s != "" && s[0] == '/' {
      var parts := Split(s, '/');
      assert !StartsWithParent(s);
      assert ".." in parts <==> parts[0] == ".." || ".." in parts[1..];
    }
  }

  /** A repository: 1 to 255 lower-case letters, digits and "._-/", none of these at either end, and no
      component "..". */
  lemma RepoSpelled(s: string)
    ensures ValidateRepo(s) == Ok(s) <==>
            && 1 <= |s| <= 255 && s[0] !in "/.-_" && s[|s| - 1] !in "/.-_" && !HasParent(s)
            && forall c :: c in s ==> c in LOWER_CASE || c in DIGITS || c in "._-/"
    ensures ValidateRepo(s) != Ok(s) ==> ValidateRepo(s) == Err(InvalidImageRef(s))
  {
    hide IsLower, IsSeparator, IsDigit;
    ParentParts(s);
    forall c
      ensures IsLower(c) || IsDigit(c) || IsSeparator(c) <==> c in LOWER_CASE || c in DIGITS || c in "._-/"
      ensures IsSeparator(c) <==> c in "/.-_"
    {
      CharsSpelled(c);
    }
    if s != "" && s[0] !in "/.-_" {
      var parts := Split(s, '/');
      assert !StartsWithParent(s) by {
        assert |s| >= 2 ==> s[..2][0] == s[0];
      }
      assert ".." in parts <==> parts[0] == ".." || ".." in parts[1..];
    }
  }

  /** A tag: 1 to 128 letters, digits and "_.-", not starting with '.' or '-'. */
  lemma TagSpelled(s: string)
    ensures ValidateTag(s) == Ok(s) <==>
            && 1 <= |s| <= 128 && s[0] !in ".-"
            && forall c :: c in s ==> c in LOWER_CASE || c in UPPER_CASE || c in DIGITS || c in "_.-"
    ensures ValidateTag(s) != Ok(s) ==> ValidateTag(s) == Err(InvalidImageRef(s))
  {
    hide IsAlphanumeric;
    forall c
      ensures IsAlphanumeric(c) || c == '_' || c == '.' || c == '-' <==>
              c in LOWER_CASE || c in UPPER_CASE || c in DIGITS || c in "_.-"
    {
      CharsSpelled(c);
    }
  }

  /** A digest: "sha256:" and 64 lower-case hexadecimal digits. */
  lemma DigestSpelled(s: string)
    ensures ValidateDigest(s) == Ok(s) <==>
            |s| == 71 && s[..7] == "sha256:" && forall c :: c in s[7..] ==> c in "0123456789abcdef"
    ensures ValidateDigest(s) != Ok(s) ==> ValidateDigest(s) == Err(InvalidImageRef(s))
  {
    hide IsHexDigit;
    forall c
      ensures IsHexDigit(c) <==> c in "0123456789abcdef"
    {
      HexSpelled(c);
    }
  }
}
