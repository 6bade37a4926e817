/** The string handling the service depends on: blank checks, enum spelling and generated ids. */
module Text {

  // unicode.IsSpace: the Latin-1 white space plus the Unicode White_Space property.
  predicate IsSpace(c: char) {
    var n := c as int;
    9 <= n <= 13 || n in {0x20, 0x85, 0xA0, 0x1680, 0x2028, 0x2029, 0x202F, 0x205F, 0x3000} || 0x2000 <= n <= 0x200A
  }

  // strings.TrimSpace(s) == ""
  predicate Blank(s: string) {
    forall i :: 0 <= i < |s| ==> IsSpace(s[i])
  }

  function TrimLeft(s: string): string {
    if s != "" && IsSpace(s[0]) then TrimLeft(s[1..]) else s
  }

  function TrimRight(s: string): string {
    if s != "" && IsSpace(s[|s| - 1]) then TrimRight(s[..|s| - 1]) else s
  }

  function TrimSpace(s: string): string {
    TrimRight(TrimLeft(s))
  }

  // Lower case as far as comparison with ASCII words goes: besides A to Z, only U+0130 and U+212A
  // have an ASCII lower case.
  function LowerChar(c: char): char {
    if 'A' <= c <= 'Z' then (c as int + 32) as char
    else if c as int == 0x130 then 'i'
    else if c as int == 0x212A then 'k'
    else c
  }

  function ToLower(s: string): string {
    seq(|s|, i requires 0 <= i < |s| => LowerChar(s[i]))
  }

  // The normalisation every Parse function of the domain applies before comparing.
  function Normalise(s: string): string {
    ToLower(TrimSpace(s))
  }

  /** fmt.Sprintf("%d", n) */
  function Decimal(n: nat): (r: string)
    ensures r != ""
  {
    if n < 10 then [Digit(n)] else Decimal(n / 10) + [Digit(n % 10)]
  }

  function Digit(n: nat): char
    requires n < 10
  {
    ('0' as int + n) as char
  }

  /** The id handed out as the n-th one of a prefix, for example "zone_7". */
  function IdOf(prefix: string, n: nat): string {
    prefix + "_" + Decimal(n)
  }

  lemma {:induction false} DecimalInjective(m: nat, n: nat)
    requires Decimal(m) == Decimal(n)
    ensures m == n
  {
    var s, t := Decimal(m), Decimal(n);
    assert s[|s| - 1] == Digit(m % 10) && t[|t| - 1] == Digit(n % 10);
    if m >= 10 && n >= 10 {
      assert s[..|s| - 1] == Decimal(m / 10) && t[..|t| - 1] == Decimal(n / 10);
      DecimalInjective(m / 10, n / 10);
    }
  }

  /** No id is ever handed out twice for one prefix. */
  lemma IdsAreUnique(prefix: string)
    ensures forall m: nat, n: nat :: IdOf(prefix, m) == IdOf(prefix, n) ==> m == n
  {
    forall m: nat, n: nat | IdOf(prefix, m) == IdOf(prefix, n)
      ensures m == n
    {
      var k := |prefix + "_"|;
      assert Decimal(m) == IdOf(prefix, m)[k..] && Decimal(n) == IdOf(prefix, n)[k..];
      DecimalInjective(m, n);
    }
  }

  // ---- What the normalisation accepts -------------------------------------------------------------

  // Nothing but white space.
  predicate AllSpace(s: string) {
    forall i :: 0 <= i < |s| ==> IsSpace(s[i])
  }

  // The letter, in either case. Two letters outside ASCII have an ASCII lower case as well.
  predicate SameLetter(c: char, w: char) {
    || (c == w && !('A' <= c <= 'Z') && c as int !in {0x130, 0x212A})
    || ('A' <= c <= 'Z' && c as int + 32 == w as int)
    || (c as int == 0x130 && w == 'i') || (c as int == 0x212A && w == 'k')
  }

  // The word stands at position i, with nothing but white space around it.
  ghost predicate SpelledAt(s: string, word: string, i: nat) {
    && i + |word| <= |s| && AllSpace(s[..i]) && AllSpace(s[i + |word|..])
    && forall k :: 0 <= k < |word| ==> SameLetter(s[i + k], word[k])
  }

  // The word, in any case and with white space around it.
  ghost predicate Spells(s: string, word: string) {
    exists i: nat :: SpelledAt(s, word, i)
  }

  lemma {:induction false} LeftTrimmed(s: string) returns (i: nat)
    ensures i <= |s| && TrimLeft(s) == s[i..] && AllSpace(s[..i])
    ensures i < |s| ==> !IsSpace(s[i])
  {
    if s != "" && IsSpace(s[0]) {
      var j := LeftTrimmed(s[1..]);
      i := j + 1;
      assert s[1..][j..] == s[i..];
      forall k | 0 <= k < i
        ensures IsSpace(s[..i][k])
      {
        assert k > 0 ==> s[..i][k] == s[1..][..j][k - 1];
      }
    } else {
      i := 0;
    }
  }

  lemma {:induction false} RightTrimmed(s: string) returns (j: nat)
    ensures j <= |s| && TrimRight(s) == s[..j] && AllSpace(s[j..])
    ensures j > 0 ==> !IsSpace(s[j - 1])
  {
    if s != "" && IsSpace(s[|s| - 1]) {
      j := RightTrimmed(s[..|s| - 1]);
      assert s[..|s| - 1][..j] == s[..j];
      forall k | 0 <= k < |s| - j
        ensures IsSpace(s[j..][k])
      {
        assert j + k < |s| - 1 ==> s[j..][k] == s[..|s| - 1][j..][k];
      }
    } else {
      j := |s|;
    }
  }

  // The core of a string between two stretches of white space.
  lemma Trimmed(s: string) returns (i: nat, j: nat)
    ensures i <= j <= |s| && TrimSpace(s) == s[i..j] && AllSpace(s[..i]) && AllSpace(s[j..])
    ensures i < j ==> !IsSpace(s[i]) && !IsSpace(s[j - 1])
  {
    i := LeftTrimmed(s);
    var t := s[i..];
    var k := RightTrimmed(t);
    j := i + k;
    assert t[..k] == s[i..j] && t[k..] == s[j..];
    if i < j {
      assert t[0] == s[i] && t[k - 1] == s[j - 1];
    }
  }

  lemma LettersAgree(c: char, w: char)
    ensures SameLetter(c, w) <==> LowerChar(c) == w
    ensures IsSpace(c) ==> LowerChar(c) == c
  {
  }

  /** What is accepted for a word is the word in any case, with white space around it. */
  lemma NormaliseSpells(s: string, word: string)
    requires word != "" && !IsSpace(word[0]) && !IsSpace(word[|word| - 1])
    ensures Normalise(s) == word <==> Spells(s, word)
  {
    var i, j := Trimmed(s);
    hide TrimSpace, LowerChar, SameLetter, IsSpace;
    forall c: char, w: char
      ensures SameLetter(c, w) <==> LowerChar(c) == w
      ensures IsSpace(c) ==> LowerChar(c) == c
    {
      LettersAgree(c, w);
    }
    if Normalise(s) == word {
      assert forall k :: 0 <= k < |word| ==> LowerChar(s[i..j][k]) == word[k];
      assert SpelledAt(s, word, i);
    }
    if Spells(s, word) {
      var a: nat :| SpelledAt(s, word, a);
      CoreIsUnique(s, i, j, a, a + |word|);
      assert Normalise(s) == word;
    }
  }

  lemma SpaceAround(s: string, i: nat, j: nat)
    requires i <= |s| && j <= |s| && AllSpace(s[..i]) && AllSpace(s[j..])
    ensures forall k :: 0 <= k < i ==> IsSpace(s[k])
    ensures forall k :: j <= k < |s| ==> IsSpace(s[k])
  {
    forall k | 0 <= k < i
      ensures IsSpace(s[k])
    {
      assert s[..i][k] == s[k];
    }
    forall k | j <= k < |s|
      ensures IsSpace(s[k])
    {
      assert s[j..][k - j] == s[k];
    }
  }

  lemma CoreIsUnique(s: string, i: nat, j: nat, a: nat, b: nat)
    requires i <= j <= |s| && AllSpace(s[..i]) && AllSpace(s[j..]) && (i < j ==> !IsSpace(s[i]) && !IsSpace(s[j - 1]))
    requires a < b <= |s| && AllSpace(s[..a]) && AllSpace(s[b..]) && !IsSpace(s[a]) && !IsSpace(s[b - 1])
    ensures i == a && j == b
  {
    hide IsSpace, AllSpace;
    SpaceAround(s, i, j);
    SpaceAround(s, a, b);
  }

  /** White space, code point by code point. */
  lemma SpacesInNumbers(c: char)
    ensures IsSpace(c) <==> c as int in {9, 10, 11, 12, 13, 32, 133, 160, 5760, 8192, 8193, 8194, 8195, 8196, 8197, 8198, 8199,
                                         8200, 8201, 8202, 8232, 8233, 8239, 8287, 12288}
  {
  }

  // The number a decimal text stands for.
  function ValueOf(s: string): int {
    if s == "" then 0 else 10 * ValueOf(s[..|s| - 1]) + (s[|s| - 1] as int - '0' as int)
  }

  /** Generated ids end in the decimal number they count, without leading zeros. */
  lemma {:induction false} DecimalReadsBack(n: nat)
    ensures ValueOf(Decimal(n)) == n && (n > 0 ==> Decimal(n)[0] != '0')
  {
    var s := Decimal(n);
    assert s[|s| - 1] == Digit(n % 10);
    if n >= 10 {
      DecimalReadsBack(n / 10);
      assert s[..|s| - 1] == Decimal(n / 10);
    } else {
      assert s[..|s| - 1] == "";
    }
  }

  /** A generated id is its prefix, an underscore and the decimal number counted. */
  lemma IdReadsBack(prefix: string, n: nat)
    ensures var id, k := IdOf(prefix, n), |prefix|;
            |id| > k + 1 && id[..k] == prefix && id[k] == '_' && ValueOf(id[k + 1..]) == n
  {
    var id, k := IdOf(prefix, n), |prefix|;
    DecimalReadsBack(n);
    assert id[k + 1..] == Decimal(n);
    assert id[..k] == prefix;
  }
}
