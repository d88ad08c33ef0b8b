// The standard alphabet of section 4 of RFC 4648 with '=' padding, and a strict decoder
// that accepts exactly the canonical texts.
module Base64 {
  import opened Wrappers
  import opened Text

  function Symbol(i: nat): (c: char)
    requires i < 64
  {
    if i < 26 then ('A' as int + i) as char
    else if i < 52 then ('a' as int + (i - 26)) as char
    else if i < 62 then ('0' as int + (i - 52)) as char
    else if i == 62 then '+' else '/'
  }

  function SymbolValue(c: char): (v: Option<nat>)
    ensures v.Some? ==> v.value < 64 && Symbol(v.value) == c
  {
    if 'A' <= c <= 'Z' then Some(c as int - 'A' as int)
    else if 'a' <= c <= 'z' then Some(c as int - 'a' as int + 26)
    else if '0' <= c <= '9' then Some(c as int - '0' as int + 52)
    else if c == '+' then Some(62)
    else if c == '/' then Some(63)
    else None
  }

  predicate InAlphabet(c: char) {
    SymbolValue(c).Some? || c == '='
  }

  lemma SymbolInverse(i: nat)
    requires i < 64
    ensures SymbolValue(Symbol(i)) == Some(i)
  {
  }

  /** One, two or three bytes as four symbols. */
  function EncodeGroup(g: Bytes): (s: string)
    requires 1 <= |g| <= 3
    ensures |s| == 4
  {
    var a := g[0] as nat;
    if |g| == 1 then [Symbol(a / 4), Symbol(a % 4 * 16), '=', '=']
    else
      var b := g[1] as nat;
      if |g| == 2 then [Symbol(a / 4), Symbol(a % 4 * 16 + b / 16), Symbol(b % 16 * 4), '=']
      else
        var c := g[2] as nat;
        [Symbol(a / 4), Symbol(a % 4 * 16 + b / 16), Symbol(b % 16 * 4 + c / 64), Symbol(c % 64)]
  }

  function Encode(b: Bytes): (s: string)
    ensures |s| == (|b| + 2) / 3 * 4
  {
    if b == "" then ""
    else if |b| <= 3 then EncodeGroup(b)
    else
      assert (|b[3..]| + 2) / 3 == (|b| + 2) / 3 - 1;
      EncodeGroup(b[..3]) + Encode(b[3..])
  }

  /** Padding is accepted only in the last group, and its spare bits must be zero. */
  function DecodeGroup(s: string, last: bool): Option<Bytes>
    requires |s| == 4
  {
    var v0, v1, v2, v3 := SymbolValue(s[0]), SymbolValue(s[1]), SymbolValue(s[2]), SymbolValue(s[3]);
    if v0.None? || v1.None? then None
    else
      var a := (v0.value * 4 + v1.value / 16) as char;
      if last && s[2] == '=' && s[3] == '=' && v1.value % 16 == 0 then Some([a])
      else if v2.None? then None
      else
        var b := (v1.value % 16 * 16 + v2.value / 4) as char;
        if last && s[3] == '=' && v2.value % 4 == 0 then Some([a, b])
        else if v3.None? then None
        else Some([a, b, (v2.value % 4 * 64 + v3.value) as char])
  }

  function Decode(s: string): Option<Bytes> {
    if s == "" then Some("")
    else if |s| < 4 then None
    else if |s| == 4 then DecodeGroup(s, true)
    else
      var head, tail := DecodeGroup(s[..4], false), Decode(s[4..]);
      if head.Some? && tail.Some? then Some(head.value + tail.value) else None
  }

  lemma SymbolsAreNotPadding(i: nat)
    requires i < 64
    ensures Symbol(i) != '='
  {
  }

  lemma GroupRoundTrip(g: Bytes, last: bool)
    requires 1 <= |g| <= 3 && (last || |g| == 3)
    ensures DecodeGroup(EncodeGroup(g), last) == Some(g)
  {
    if |g| == 1 {
      RoundTripOne(g);
    } else if |g| == 2 {
      RoundTripTwo(g);
    } else {
      RoundTripThree(g, last);
    }
  }

  lemma RoundTripOne(g: Bytes)
    requires |g| == 1
    ensures DecodeGroup(EncodeGroup(g), true) == Some(g)
  {
    var a := g[0] as nat;
    SymbolInverse(a / 4);
    SymbolInverse(a % 4 * 16);
    assert (a / 4 * 4 + a % 4) as char == g[0];
    assert g == [g[0]];
  }

  lemma RoundTripTwo(g: Bytes)
    requires |g| == 2
    ensures DecodeGroup(EncodeGroup(g), true) == Some(g)
  {
    var a, b := g[0] as nat, g[1] as nat;
    var x, y, z := a / 4, a % 4 * 16 + b / 16, b % 16 * 4;
    SymbolInverse(x);
    SymbolInverse(y);
    SymbolInverse(z);
    SymbolsAreNotPadding(z);
    assert x * 4 + y / 16 == a && y % 16 * 16 + z / 4 == b && z % 4 == 0;
    assert g == [g[0], g[1]];
  }

  lemma DecodeFull(s: string, last: bool, x: nat, y: nat, z: nat, w: nat)
    requires |s| == 4 && s[2] != '=' && s[3] != '=' && x < 64 && y < 64 && z < 64 && w < 64
    requires SymbolValue(s[0]) == Some(x) && SymbolValue(s[1]) == Some(y)
    requires SymbolValue(s[2]) == Some(z) && SymbolValue(s[3]) == Some(w)
    ensures DecodeGroup(s, last) ==
            Some([(x * 4 + y / 16) as char, (y % 16 * 16 + z / 4) as char, (z % 4 * 64 + w) as char])
  {
    hide SymbolValue;
  }

  lemma RoundTripThree(g: Bytes, last: bool)
    requires |g| == 3
    ensures DecodeGroup(EncodeGroup(g), last) == Some(g)
  {
    var a, b, c := g[0] as nat, g[1] as nat, g[2] as nat;
    var x, y, z, w := a / 4, a % 4 * 16 + b / 16, b % 16 * 4 + c / 64, c % 64;
    hide Symbol, SymbolValue;
    SymbolInverse(x);
    SymbolInverse(y);
    SymbolInverse(z);
    SymbolInverse(w);
    SymbolsAreNotPadding(z);
    SymbolsAreNotPadding(w);
    SixBits(a, b, c);
    DecodeFull(EncodeGroup(g), last, x, y, z, w);
    assert g == [g[0], g[1], g[2]];
  }

  lemma SixBits(a: nat, b: nat, c: nat)
    requires a < 256 && b < 256 && c < 256
    ensures var x, y, z, w := a / 4, a % 4 * 16 + b / 16, b % 16 * 4 + c / 64, c % 64;
            x * 4 + y / 16 == a && y % 16 * 16 + z / 4 == b && z % 4 * 64 + w == c
  {
  }

  /** Decoding what was encoded gives the bytes back, for every byte string. */
  lemma {:induction false} RoundTrip(b: Bytes)
    ensures Decode(Encode(b)) == Some(b)
  {
    if b == "" {
    } else if |b| <= 3 {
      GroupRoundTrip(b, true);
    } else {
      var s := Encode(b);
      GroupRoundTrip(b[..3], false);
      RoundTrip(b[3..]);
      assert s[..4] == EncodeGroup(b[..3]) && s[4..] == Encode(b[3..]);
      assert b == b[..3] + b[3..];
    }
  }

  lemma EncodeOne(x: nat, y: nat)
    requires x < 64 && y < 64 && y % 16 == 0
    ensures EncodeGroup([(x * 4 + y / 16) as char]) == [Symbol(x), Symbol(y), '=', '=']
  {
    hide Symbol;
    EightBits(x, y, 0, 0);
  }

  lemma EncodeTwo(x: nat, y: nat, z: nat)
    requires x < 64 && y < 64 && z < 64 && z % 4 == 0
    ensures EncodeGroup([(x * 4 + y / 16) as char, (y % 16 * 16 + z / 4) as char]) == [Symbol(x), Symbol(y), Symbol(z), '=']
  {
    hide Symbol;
    EightBits(x, y, z, 0);
  }

  lemma EncodeThree(x: nat, y: nat, z: nat, w: nat)
    requires x < 64 && y < 64 && z < 64 && w < 64
    ensures EncodeGroup([(x * 4 + y / 16) as char, (y % 16 * 16 + z / 4) as char, (z % 4 * 64 + w) as char]) ==
            [Symbol(x), Symbol(y), Symbol(z), Symbol(w)]
  {
    hide Symbol;
    EightBits(x, y, z, w);
  }

  lemma GroupCanonical(s: string, last: bool)
    requires |s| == 4 && DecodeGroup(s, last).Some?
    ensures 1 <= |DecodeGroup(s, last).value| <= 3
    ensures last || |DecodeGroup(s, last).value| == 3
    ensures EncodeGroup(DecodeGroup(s, last).value) == s
  {
    hide Symbol, SymbolValue, EncodeGroup;
    var x, y := SymbolValue(s[0]).value, SymbolValue(s[1]).value;
    if last && s[2] == '=' && s[3] == '=' && y % 16 == 0 {
      EncodeOne(x, y);
    } else {
      var z := SymbolValue(s[2]).value;
      if last && s[3] == '=' && z % 4 == 0 {
        EncodeTwo(x, y, z);
      } else {
        EncodeThree(x, y, z, SymbolValue(s[3]).value);
      }
    }
    assert s == [s[0], s[1], s[2], s[3]];
  }

  lemma EightBits(x: nat, y: nat, z: nat, w: nat)
    requires x < 64 && y < 64 && z < 64 && w < 64
    ensures var a, b, c := x * 4 + y / 16, y % 16 * 16 + z / 4, z % 4 * 64 + w;
            && a / 4 == x && a % 4 * 16 + b / 16 == y && b % 16 * 4 + c / 64 == z && c % 64 == w
            && (y % 16 == 0 ==> a % 4 * 16 == y) && (z % 4 == 0 ==> b % 16 * 4 == z)
  {
  }

  /** The decoder accepts canonical texts only: re-encoding its answer gives the text back. */
  lemma {:induction false} Canonical(s: string)
    requires Decode(s).Some?
    ensures Encode(Decode(s).value) == s
  {
    if s == "" {
    } else if |s| == 4 {
      GroupCanonical(s, true);
    } else {
      GroupCanonical(s[..4], false);
      Canonical(s[4..]);
      var g, rest := DecodeGroup(s[..4], false).value, Decode(s[4..]).value;
      assert |s[4..]| == (|rest| + 2) / 3 * 4;
      assert (g + rest)[..3] == g && (g + rest)[3..] == rest;
      assert s == s[..4] + s[4..];
    }
  }

  lemma {:induction false} OutputAlphabet(b: Bytes)
    ensures forall i :: 0 <= i < |Encode(b)| ==> InAlphabet(Encode(b)[i])
  {
    if b != "" {
      var g := if |b| <= 3 then b else b[..3];
      GroupAlphabet(g);
      if |b| > 3 {
        OutputAlphabet(b[3..]);
      }
    }
  }

  lemma GroupAlphabet(g: Bytes)
    requires 1 <= |g| <= 3
    ensures forall i :: 0 <= i < 4 ==> InAlphabet(EncodeGroup(g)[i])
  {
    var s := EncodeGroup(g);
    forall i | 0 <= i < 64
      ensures InAlphabet(Symbol(i))
    {
      SymbolInverse(i);
    }
    assert InAlphabet(s[0]) && InAlphabet(s[1]) && InAlphabet(s[2]) && InAlphabet(s[3]);
  }

  // ---------------------------------------------------------------------------
  // The text itself
  // ---------------------------------------------------------------------------

  const UPPER := "ABCDEFGHIJKLMNOPQRSTUVWXYZ"
  const LOWER := "abcdefghijklmnopqrstuvwxyz"

  /** Table 1 of RFC 4648. */
  const ALPHABET := UPPER + LOWER + "0123456789" + "+/"

  /** Four characters are these four symbols of the alphabet. */
  predicate Spells(s: string, x: nat, y: nat, z: nat, w: nat) {
    && x < 64 && y < 64 && z < 64 && w < 64
    && s == [ALPHABET[x], ALPHABET[y], ALPHABET[z], ALPHABET[w]]
  }

  lemma SymbolPlace(i: nat)
    requires i < 64
    ensures Symbol(i) == ALPHABET[i]
  {
    if i < 26 {
      UpperPlace(i);
    } else if i < 52 {
      LowerPlace(i - 26);
    } else if i < 62 {
      DigitPlace(i - 52);
    }
  }

  lemma UpperPlace(i: nat)
    requires i < 26
    ensures ALPHABET[i] as int == 'A' as int + i
  {
    assert ALPHABET[i] == UPPER[i];
  }

  lemma LowerPlace(i: nat)
    requires i < 26
    ensures ALPHABET[26 + i] as int == 'a' as int + i
  {
    assert ALPHABET[26 + i] == LOWER[i];
  }

  lemma DigitPlace(i: nat)
    requires i < 10
    ensures ALPHABET[52 + i] as int == '0' as int + i
  {
    assert ALPHABET[52 + i] == "0123456789"[i];
  }

  /** Three bytes and four symbols: the same 24-bit number. */
  ghost predicate SpellsThree(s: string, a: char, b: char, c: char) {
    exists x: nat, y: nat, z: nat, w: nat ::
      && Spells(s, x, y, z, w)
      && x * 262144 + y * 4096 + z * 64 + w == a as nat * 65536 + b as nat * 256 + c as nat
  }

  /** Two bytes: three symbols, the last with two spare bits, and one '='. */
  ghost predicate SpellsTwo(s: string, a: char, b: char) {
    exists x: nat, y: nat, z: nat ::
      && x < 64 && y < 64 && z < 64 && s == [ALPHABET[x], ALPHABET[y], ALPHABET[z], '=']
      && x * 4096 + y * 64 + z == (a as nat * 256 + b as nat) * 4
  }

  /** One byte: two symbols, the second with four spare bits, and two '='. */
  ghost predicate SpellsOne(s: string, a: char) {
    exists x: nat, y: nat ::
      x < 64 && y < 64 && s == [ALPHABET[x], ALPHABET[y], '=', '='] && x * 64 + y == a as nat * 16
  }

  lemma FullGroup(g: Bytes)
    requires |g| == 3
    ensures SpellsThree(EncodeGroup(g), g[0], g[1], g[2])
  {
    hide Symbol, SpellsThree;
    var a, b, c := g[0] as nat, g[1] as nat, g[2] as nat;
    var x, y, z, w := a / 4, a % 4 * 16 + b / 16, b % 16 * 4 + c / 64, c % 64;
    var s := EncodeGroup(g);
    assert s == [Symbol(x), Symbol(y), Symbol(z), Symbol(w)];
    hide EncodeGroup;
    SymbolPlace(x);
    SymbolPlace(y);
    SymbolPlace(z);
    SymbolPlace(w);
    Weights(a, b, c);
    FullGroupAs(s, g[0], g[1], g[2], x, y, z, w);
  }

  lemma FullGroupAs(s: string, a: char, b: char, c: char, x: nat, y: nat, z: nat, w: nat)
    requires Spells(s, x, y, z, w) && x * 262144 + y * 4096 + z * 64 + w == a as nat * 65536 + b as nat * 256 + c as nat
    ensures SpellsThree(s, a, b, c)
  {
    hide Spells;
  }

  lemma Weights(a: nat, b: nat, c: nat)
    requires a < 256 && b < 256 && c < 256
    ensures var x, y, z, w := a / 4, a % 4 * 16 + b / 16, b % 16 * 4 + c / 64, c % 64;
            x * 262144 + y * 4096 + z * 64 + w == a * 65536 + b * 256 + c
  {
    SixBits(a, b, c);
  }

  lemma OneByte(g: Bytes)
    requires |g| == 1
    ensures SpellsOne(EncodeGroup(g), g[0])
  {
    hide Symbol;
    var a := g[0] as nat;
    var x, y := a / 4, a % 4 * 16;
    SymbolPlace(x);
    SymbolPlace(y);
    assert EncodeGroup(g) == [ALPHABET[x], ALPHABET[y], '=', '='];
  }

  lemma TwoBytes(g: Bytes)
    requires |g| == 2
    ensures SpellsTwo(EncodeGroup(g), g[0], g[1])
  {
    hide Symbol;
    var a, b := g[0] as nat, g[1] as nat;
    var x, y, z := a / 4, a % 4 * 16 + b / 16, b % 16 * 4;
    SymbolPlace(x);
    SymbolPlace(y);
    SymbolPlace(z);
    assert EncodeGroup(g) == [ALPHABET[x], ALPHABET[y], ALPHABET[z], '='];
  }

  /** The four characters of each group of bytes, the last one padded if it is short. */
  lemma {:induction false} EncodeGroups(b: Bytes, k: nat)
    requires 3 * k < |b|
    ensures Encode(b)[4 * k..4 * k + 4] == EncodeGroup(b[3 * k..if 3 * k + 3 <= |b| then 3 * k + 3 else |b|])
    decreases k
  {
    hide EncodeGroup;
    if |b| <= 3 {
      assert b[0..|b|] == b && Encode(b)[0..4] == Encode(b);
    } else if k == 0 {
      assert Encode(b) == EncodeGroup(b[..3]) + Encode(b[3..]);
    } else {
      var tail := b[3..];
      EncodeGroups(tail, k - 1);
      var m := if 3 * k + 3 <= |b| then 3 * k + 3 else |b|;
      assert tail[3 * (k - 1)..m - 3] == b[3 * k..m];
      assert Encode(b)[4 * k..4 * k + 4] == Encode(tail)[4 * (k - 1)..4 * (k - 1) + 4];
    }
  }

  /** The encoded text, over the alphabet written out: each full group of three bytes and its four
      characters are the same number, and the short last group is padded with '='. */
  lemma EncodeSpelled(b: Bytes, k: nat)
    requires 3 * k < |b|
    ensures var s := Encode(b)[4 * k..4 * k + 4];
            if |b| == 3 * k + 1 then SpellsOne(s, b[3 * k])
            else if |b| == 3 * k + 2 then SpellsTwo(s, b[3 * k], b[3 * k + 1])
            else SpellsThree(s, b[3 * k], b[3 * k + 1], b[3 * k + 2])
  {
    hide Encode, EncodeGroup, SpellsOne, SpellsTwo, SpellsThree;
    EncodeGroups(b, k);
    if |b| == 3 * k + 1 {
      var g := b[3 * k..|b|];
      OneByte(g);
    } else if |b| == 3 * k + 2 {
      var g := b[3 * k..|b|];
      TwoBytes(g);
    } else {
      var g := b[3 * k..3 * k + 3];
      FullGroup(g);
    }
  }
}
