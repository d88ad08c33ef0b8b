// Strings, as the model sees them. A Rust `str` or byte buffer is the sequence of its
// UTF-8 bytes, each written as the Dafny character with that code.
module Text {
  import opened Wrappers

  predicate IsBytes(s: string) {
    forall i :: 0 <= i < |s| ==> s[i] as int < 256
  }

  type Bytes = s: string | IsBytes(s) witness ""

  /** One more element in front of parts already split. */
  function PushFront<T(==)>(x: T, c: T, parts: seq<seq<T>>): (r: seq<seq<T>>)
    requires |parts| >= 1
    ensures |r| >= 1
  {
    if x == c then [[]] + parts else [[x] + parts[0]] + parts[1..]
  }

  /** `str::split(c)`: always at least one part, and one more part than separators. */
  function Split<T(==)>(s: seq<T>, c: T): (parts: seq<seq<T>>)
    ensures |parts| >= 1
  {
    if s == [] then [[]] else PushFront(s[0], c, Split(s[1..], c))
  }

  lemma PushAppend<T>(x: T, c: T, p: seq<seq<T>>, q: seq<seq<T>>)
    requires |p| >= 1
    ensures PushFront(x, c, p + q) == PushFront(x, c, p) + q
  {
    assert (p + q)[1..] == p[1..] + q;
  }

  lemma {:induction false} SplitAppend<T>(a: seq<T>, b: seq<T>, c: T)
    ensures Split(a + [c] + b, c) == Split(a, c) + Split(b, c)
  {
    var whole := a + [c] + b;
    if a == [] {
      assert whole[1..] == b;
    } else {
      SplitAppend(a[1..], b, c);
      assert whole[1..] == a[1..] + [c] + b;
      PushAppend(a[0], c, Split(a[1..], c), Split(b, c));
    }
  }

  lemma {:induction false} SplitPlain<T>(a: seq<T>, c: T)
    requires c !in a
    ensures Split(a, c) == [a]
  {
    if a != [] {
      SplitPlain(a[1..], c);
      assert a == [a[0]] + a[1..];
    }
  }

  /** A word without the separator in front of the rest splits off as the first part. */
  lemma SplitWord<T>(w: seq<T>, rest: seq<T>, c: T)
    requires c !in w
    ensures Split(w + [c] + rest, c) == [w] + Split(rest, c)
  {
    SplitAppend(w, rest, c);
    SplitPlain(w, c);
  }

  lemma {:induction false} SplitParts<T>(s: seq<T>, c: T)
    ensures forall p :: p in Split(s, c) ==> c !in p && forall x :: x in p ==> x in s
  {
    if s != [] {
      SplitParts(s[1..], c);
      var rest := Split(s[1..], c);
      assert rest[0] in rest;
    }
  }

  /** Parts with one separator between neighbours. */
  function Join<T>(parts: seq<seq<T>>, c: T): seq<T>
    requires parts != []
  {
    if |parts| == 1 then parts[0] else parts[0] + [c] + Join(parts[1..], c)
  }

  lemma {:induction false} SplitJoin<T>(parts: seq<seq<T>>, c: T)
    requires parts != [] && forall p :: p in parts ==> c !in p
    ensures Split(Join(parts, c), c) == parts
  {
    if |parts| == 1 {
      SplitPlain(parts[0], c);
    } else {
      SplitJoin(parts[1..], c);
      SplitWord(parts[0], Join(parts[1..], c), c);
    }
  }

  lemma {:induction false} JoinElements<T>(parts: seq<seq<T>>, c: T)
    requires parts != []
    ensures forall x :: x in Join(parts, c) ==> x == c || exists p :: p in parts && x in p
    ensures (exists p :: p in parts && p != []) ==> Join(parts, c) != []
  {
    if |parts| > 1 {
      JoinElements(parts[1..], c);
    }
  }

  // ---------------------------------------------------------------------------
  // Decimal numbers
  // ---------------------------------------------------------------------------

  predicate IsDigit(c: char) {
    '0' <= c <= '9'
  }

  predicate AllDigits(s: string) {
    forall i :: 0 <= i < |s| ==> IsDigit(s[i])
  }

  function Digit(n: nat): (c: char)
    requires n < 10
    ensures IsDigit(c)
  {
    ('0' as int + n) as char
  }

  function Decimal(n: nat): (s: string)
    ensures s != "" && AllDigits(s)
  {
    if n < 10 then [Digit(n)] else Decimal(n / 10) + [Digit(n % 10)]
  }

  function ValueOf(s: string): nat
    requires AllDigits(s)
  {
    if s == "" then 0 else ValueOf(s[..|s| - 1]) * 10 + (s[|s| - 1] as int - '0' as int)
  }

  lemma {:induction false} DecimalRoundTrip(n: nat)
    ensures ValueOf(Decimal(n)) == n
  {
    var s := Decimal(n);
    if n < 10 {
      assert s[..|s| - 1] == "";
    } else {
      DecimalRoundTrip(n / 10);
      assert s[..|s| - 1] == Decimal(n / 10);
    }
  }

  function ParseNat(s: string): Option<nat> {
    if s != "" && AllDigits(s) then Some(ValueOf(s)) else None
  }

  // ---------------------------------------------------------------------------
  // What the digits are worth, and that splitting loses nothing
  // ---------------------------------------------------------------------------

  function Power10(k: nat): nat {
    if k == 0 then 1 else 10 * Power10(k - 1)
  }

  lemma {:induction false} LeadingChar(c: char, s: string)
    requires IsDigit(c) && AllDigits(s)
    ensures AllDigits([c] + s) && ValueOf([c] + s) == (c as int - '0' as int) * Power10(|s|) + ValueOf(s)
    decreases |s|
  {
    if s == "" {
      assert ([c] + s)[..0] == "" && Power10(0) == 1;
    } else {
      var init, last := s[..|s| - 1], s[|s| - 1];
      assert s == init + [last] && [c] + s == [c] + init + [last];
      LeadingChar(c, init);
      LastDigit(init, last);
      LastDigit([c] + init, last);
      hide AllDigits, ValueOf;
      assert Power10(|s|) == 10 * Power10(|init|);
      Spread(c as int - '0' as int, Power10(|init|), ValueOf(init), last as int - '0' as int);
    }
  }

  lemma Spread(d: int, p: int, v: int, e: int)
    ensures (d * p + v) * 10 + e == d * (10 * p) + (v * 10 + e)
  {
  }

  lemma LastDigit(s: string, c: char)
    requires AllDigits(s) && IsDigit(c)
    ensures AllDigits(s + [c]) && ValueOf(s + [c]) == ValueOf(s) * 10 + (c as int - '0' as int)
  {
    assert (s + [c])[..|s|] == s;
  }

  /** A leading digit counts its place in "0123456789" times the power of ten of its position. */
  lemma LeadingDigit(d: nat, s: string)
    requires d < 10 && AllDigits(s)
    ensures var t := ["0123456789"[d]] + s; AllDigits(t) && ValueOf(t) == d * Power10(|s|) + ValueOf(s)
  {
    hide AllDigits, ValueOf, Power10;
    DigitPlaces(d);
    LeadingChar("0123456789"[d], s);
  }

  lemma DigitPlaces(d: nat)
    requires d < 10
    ensures "0123456789"[d] as int == '0' as int + d
  {
  }

  /** Printing a number: the digit at each place. */
  lemma DecimalEnds(n: nat)
    ensures Decimal(n)[|Decimal(n)| - 1] == "0123456789"[n % 10]
    ensures Decimal(n)[0] == '0' ==> n == 0
    decreases n
  {
    DigitPlaces(n % 10);
    if n >= 10 {
      DecimalEnds(n / 10);
      assert Decimal(n)[0] == Decimal(n / 10)[0];
    }
  }

  /** The parts, joined again, are the text. */
  lemma {:induction false} JoinSplit<T>(s: seq<T>, c: T)
    ensures Join(Split(s, c), c) == s
  {
    if s != [] {
      JoinSplit(s[1..], c);
      var rest := Split(s[1..], c);
      if s[0] == c {
        assert ([[]] + rest)[1..] == rest;
      } else {
        JoinPush(s[0], rest, c);
      }
    }
  }

  lemma JoinPush<T>(x: T, rest: seq<seq<T>>, c: T)
    requires rest != []
    ensures Join([[x] + rest[0]] + rest[1..], c) == [x] + Join(rest, c)
  {
    var parts := [[x] + rest[0]] + rest[1..];
    assert parts[1..] == rest[1..];
  }
}
