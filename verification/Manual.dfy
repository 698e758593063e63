/** The three-word phrase (src/credential_v2/manual.rs): thirty secret bits and three
    checksum bits as three eleven-bit indices into a fixed word list. */
module ManualWords {
  import opened Base
  import opened Octets
  import opened PresenceCodes
  import opened Bootstraps

  datatype Refused = Oversize | Encoding | Schema | Checksum

  const MAX_PHRASE: nat := 128

  /** The order of strings: the first difference decides, and a proper prefix comes first. */
  predicate Before(a: string, b: string) {
    b != "" && (a == "" || a[0] < b[0] || (a[0] == b[0] && Before(a[1..], b[1..])))
  }

  ghost predicate Ascending(words: seq<string>) {
    forall i, j :: 0 <= i < j < |words| ==> Before(words[i], words[j])
  }

  /** What the program relies on: 2,048 words of one to eight small letters, in order. */
  ghost predicate ListOk(words: seq<string>) {
    && |words| == 2048
    && (forall i :: 0 <= i < |words| ==> 1 <= |words[i]| <= 8 && forall c | c in words[i] :: 'a' <= c <= 'z')
    && Ascending(words)
  }

  type Secret30 = n: nat | n < 0x4000_0000

  type Sum3 = n: nat | n < 8

  // ---------------------------------------------------------------- bits and indices

  function Bits(check: Secret30 -> Sum3, n: Secret30): nat { 8 * n + check(n) }

  function Index(bits: nat, shift: nat): (r: nat)
    requires shift in {0, 1, 2}
    ensures r < 2048
  {
    (if shift == 2 then bits / 0x40_0000 else if shift == 1 then bits / 0x800 else bits) % 2048
  }

  lemma IndicesRebuild(bits: nat)
    requires bits < 0x2_0000_0000
    ensures (Index(bits, 2) * 2048 + Index(bits, 1)) * 2048 + Index(bits, 0) == bits
  {
    assert bits / 0x40_0000 == bits / 0x800 / 0x800;
  }

  lemma RebuiltIndices(a: nat, b: nat, c: nat)
    requires a < 2048 && b < 2048 && c < 2048
    ensures var bits := (a * 2048 + b) * 2048 + c;
            bits < 0x2_0000_0000 && Index(bits, 2) == a && Index(bits, 1) == b && Index(bits, 0) == c
  {
    var bits := (a * 2048 + b) * 2048 + c;
    assert bits / 0x800 == a * 2048 + b && bits % 0x800 == c;
    assert bits / 0x40_0000 == a;
  }

  // ---------------------------------------------------------------- text

  function LowerChar(c: char): char { if 'A' <= c <= 'Z' then c - 'A' + 'a' else c }

  function Lower(s: string): (r: string)
    ensures |r| == |s| && forall i :: 0 <= i < |s| ==> r[i] == LowerChar(s[i])
  {
    seq(|s|, i requires 0 <= i < |s| => LowerChar(s[i]))
  }

  predicate Blank(c: char) { c == ' ' || c == '\t' || c == '\r' || c == '\n' }

  /** Words between blanks; `word` is the one being read. */
  function Tokens(s: string, word: string): seq<string> {
    if s == "" then if word == "" then [] else [word]
    else if Blank(s[0]) then (if word == "" then [] else [word]) + Tokens(s[1..], "")
    else Tokens(s[1..], word + [s[0]])
  }

  function Find(words: seq<string>, word: string, from: nat): (r: Option<nat>)
    requires from <= |words|
    ensures r.Some? ==> from <= r.value < |words| && words[r.value] == word
    ensures r.None? ==> forall i :: from <= i < |words| ==> words[i] != word
    decreases |words| - from
  {
    if from == |words| then None else if words[from] == word then Some(from) else Find(words, word, from + 1)
  }

  function Phrase(words: seq<string>, bits: nat): string
    requires |words| == 2048
  {
    words[Index(bits, 2)] + " " + words[Index(bits, 1)] + " " + words[Index(bits, 0)]
  }

  /** `encode` */
  function Encode(words: seq<string>, check: Secret30 -> Sum3, n: Secret30): string
    requires |words| == 2048
  {
    Phrase(words, Bits(check, n))
  }

  /** `from_str` */
  function Parse(words: seq<string>, check: Secret30 -> Sum3, input: string): Result<Secret30, Refused>
    requires |words| == 2048
  {
    if |input| > MAX_PHRASE then Err(Oversize)
    else if !IsAscii(input) then Err(Encoding)
    else
      var tokens := Tokens(Lower(input), "");
      if |tokens| != 3 then Err(Schema)
      else
        var a, b, c := Find(words, tokens[0], 0), Find(words, tokens[1], 0), Find(words, tokens[2], 0);
        if a.None? || b.None? || c.None? then Err(Schema)
        else
          var bits := (a.value * 2048 + b.value) * 2048 + c.value;
          RebuiltIndices(a.value, b.value, c.value);
          if check(bits / 8) != bits % 8 then Err(Checksum) else Ok(bits / 8)
  }

  // ---------------------------------------------------------------- round trips

  lemma {:induction false} TokensOfWord(letters: string, rest: string, word: string)
    requires forall c | c in letters :: !Blank(c)
    ensures Tokens(letters + rest, word) == Tokens(rest, word + letters)
  {
    if letters == "" {
      assert letters + rest == rest && word + letters == word;
    } else {
      TokensOfWord(letters[1..], rest, word + [letters[0]]);
      assert (letters + rest)[1..] == letters[1..] + rest;
      assert word + [letters[0]] + letters[1..] == word + letters;
    }
  }

  lemma TokensOfThree(a: string, b: string, c: string)
    requires a != "" && b != "" && c != ""
    requires forall x | x in a || x in b || x in c :: !Blank(x)
    ensures Tokens(a + " " + b + " " + c, "") == [a, b, c]
  {
    assert a + " " + b + " " + c == a + (" " + (b + (" " + c)));
    TokensOfWord(a, " " + (b + (" " + c)), "");
    assert "" + a == a && "" + b == b && "" + c == c;
    assert (" " + (b + (" " + c)))[1..] == b + (" " + c);
    TokensOfWord(b, " " + c, "");
    assert (" " + c)[1..] == c;
    TokensOfWord(c, "", "");
    assert c + "" == c;
    assert Tokens("", c) == [c];
    assert Tokens(" " + c, b) == [b] + Tokens(c, "");
  }

  lemma FindsItself(words: seq<string>, i: nat)
    requires ListOk(words) && i < |words|
    ensures Find(words, words[i], 0) == Some(i)
  {
    OnlyOne(words, words[i], i);
  }

  lemma SmallLettersStay(s: string)
    requires forall c | c in s :: 'a' <= c <= 'z' || c == ' '
    ensures Lower(s) == s && IsAscii(s)
  {
    assert forall i :: 0 <= i < |s| ==> s[i] in s;
  }

  /** Thirty bits survive the trip through 33 bits, three indices, three words and back. */
  lemma PhraseParses(words: seq<string>, check: Secret30 -> Sum3, n: Secret30)
    requires ListOk(words)
    ensures Parse(words, check, Encode(words, check, n)) == Ok(n)
  {
    hide Tokens, Find;
    var bits := Bits(check, n);
    IndicesRebuild(bits);
    var i, j, k := Index(bits, 2), Index(bits, 1), Index(bits, 0);
    var a, b, c := words[i], words[j], words[k];
    var text := Encode(words, check, n);
    assert text == a + " " + b + " " + c && |text| <= 26;
    forall x | x in text ensures 'a' <= x <= 'z' || x == ' ' { assert x in a || x in b || x in c || x == ' '; }
    SmallLettersStay(text);
    TokensOfThree(a, b, c);
    FindsItself(words, i);
    FindsItself(words, j);
    FindsItself(words, k);
    assert bits / 8 == n && bits % 8 == check(n);
  }

  /** Any accepted phrase, encoded again, is its three words in small letters with one
      blank between them. */
  lemma AcceptedEncodesBack(words: seq<string>, check: Secret30 -> Sum3, input: string)
    requires ListOk(words) && Parse(words, check, input).Ok?
    ensures var tokens := Tokens(Lower(input), "");
            |tokens| == 3 && Encode(words, check, Parse(words, check, input).value)
                == tokens[0] + " " + tokens[1] + " " + tokens[2]
  {
    hide Tokens, Find;
    var tokens := Tokens(Lower(input), "");
    var a, b, c := Find(words, tokens[0], 0).value, Find(words, tokens[1], 0).value, Find(words, tokens[2], 0).value;
    RebuiltIndices(a, b, c);
    var bits := (a * 2048 + b) * 2048 + c;
    assert Bits(check, bits / 8) == bits;
  }

  // ---------------------------------------------------------------- the program's loops

  /** The loop of `encode` over the shifts 22, 11 and 0. */
  method EncodeWords(words: seq<string>, check: Secret30 -> Sum3, n: Secret30) returns (text: string)
    requires ListOk(words)
    ensures text == Encode(words, check, n)
  {
    var bits := Bits(check, n);
    text := "";
    for k := 0 to 3
      invariant text == if k == 0 then "" else if k == 1 then words[Index(bits, 2)]
                        else if k == 2 then words[Index(bits, 2)] + " " + words[Index(bits, 1)]
                        else Phrase(words, bits)
    {
      if text != "" { text := text + " "; }
      text := text + words[Index(bits, 2 - k)];
    }
  }

  lemma {:induction false} BeforeIsStrict(a: string, b: string)
    requires Before(a, b)
    ensures a != b && !Before(b, a)
  {
    if a != "" && a[0] == b[0] { BeforeIsStrict(a[1..], b[1..]); }
  }

  lemma {:induction false} BeforeIsTotal(a: string, b: string)
    ensures Before(a, b) || a == b || Before(b, a)
  {
    if a != "" && b != "" && a[0] == b[0] {
      BeforeIsTotal(a[1..], b[1..]);
      assert a == [a[0]] + a[1..] && b == [b[0]] + b[1..];
    }
  }

  lemma {:induction false} BeforeIsTransitive(a: string, b: string, c: string)
    requires Before(a, b) && Before(b, c)
    ensures Before(a, c)
  {
    if a != "" && a[0] == b[0] == c[0] { BeforeIsTransitive(a[1..], b[1..], c[1..]); }
  }

  /** Halving an ordered list finds what looking at every word finds. */
  method BinarySearch(words: seq<string>, word: string) returns (r: Option<nat>)
    requires Ascending(words)
    ensures r == Find(words, word, 0)
  {
    hide Find;
    var lo, hi := 0, |words|;
    while lo < hi
      invariant 0 <= lo <= hi <= |words|
      invariant forall i :: 0 <= i < lo ==> Before(words[i], word)
      invariant forall i :: hi <= i < |words| ==> Before(word, words[i])
    {
      var mid := lo + (hi - lo) / 2;
      if words[mid] == word {
        OnlyOne(words, word, mid);
        return Some(mid);
      }
      BeforeIsTotal(words[mid], word);
      if Before(words[mid], word) {
        forall i | 0 <= i <= mid ensures Before(words[i], word) {
          if i < mid { BeforeIsTransitive(words[i], words[mid], word); }
        }
        lo := mid + 1;
      } else {
        forall i | mid <= i < |words| ensures Before(word, words[i]) {
          if mid < i { BeforeIsTransitive(word, words[mid], words[i]); }
        }
        hi := mid;
      }
    }
    forall i | 0 <= i < |words| ensures words[i] != word {
      if i < lo { BeforeIsStrict(words[i], word); } else { BeforeIsStrict(word, words[i]); }
    }
    return None;
  }

  lemma OnlyOne(words: seq<string>, word: string, i: nat)
    requires Ascending(words) && i < |words| && words[i] == word
    ensures Find(words, word, 0) == Some(i)
  {
    hide Find;
    var r := Find(words, word, 0);
    if r.value != i { BeforeIsStrict(word, word); }
  }

  /** The loop of `from_str`: shift in eleven bits per word. */
  method ReadIndices(words: seq<string>, tokens: seq<string>) returns (r: Option<nat>)
    requires |tokens| == 3 && ListOk(words)
    ensures var a, b, c := Find(words, tokens[0], 0), Find(words, tokens[1], 0), Find(words, tokens[2], 0);
            r == if a.None? || b.None? || c.None? then None else Some((a.value * 2048 + b.value) * 2048 + c.value)
  {
    var bits: nat := 0;
    for k := 0 to 3
      invariant forall i :: 0 <= i < k ==> Find(words, tokens[i], 0).Some?
      invariant k == 0 ==> bits == 0
      invariant k == 1 ==> bits == Find(words, tokens[0], 0).value
      invariant k == 2 ==> bits == Find(words, tokens[0], 0).value * 2048 + Find(words, tokens[1], 0).value
      invariant k == 3 ==>
                  bits == (Find(words, tokens[0], 0).value * 2048 + Find(words, tokens[1],
                      0).value) * 2048 + Find(words, tokens[2], 0).value
    {
      var index := BinarySearch(words, tokens[k]);
      if index.None? { return None; }
      bits := bits * 2048 + index.value;
    }
    return Some(bits);
  }

  // ---------------------------------------------------------------- the mapped secret

  /** `from_csprng` for a value already cut to thirty bits. */
  function SecretOf(n: Secret30): Bytes16 { MANUAL_PREFIX + BigEndian(n, 4) }

  /** The secrets `from_secret` recognises are exactly the thirty-bit values. */
  lemma ManualSecretsAre(s: Bytes16)
    ensures ManualSecret(s) <==> exists n: Secret30 :: s == SecretOf(n)
  {
    Widths();
    if ManualSecret(s) {
      FromBigEndianRoundTrip(s[12..]);
      var n := FromBigEndian(s[12..]);
      TopOctet(s[12..]);
      assert s == s[..12] + s[12..];
      assert s == SecretOf(n);
    }
    if n: Secret30 :| s == SecretOf(n) {
      BigEndianRoundTrip(n, 4);
      TopOctet(BigEndian(n, 4));
      assert s[..12] == MANUAL_PREFIX && s[12] == BigEndian(n, 4)[0];
    }
  }

  lemma TopOctet(s: Bytes)
    requires |s| == 4
    ensures FromBigEndian(s) < 0x4000_0000 <==> s[0] < 64
  {
    assert s[..3][..2] == s[..2] && s[..2][..1] == s[..1] && s[..1][..0] == [];
    var a: int, b: int, c: int, d: int := s[0], s[1], s[2], s[3];
    assert FromBigEndian(s[..1]) == a;
    assert FromBigEndian(s[..2]) == 256 * a + b;
    assert FromBigEndian(s[..3]) == 256 * (256 * a + b) + c;
    assert FromBigEndian(s) == 256 * (256 * (256 * a + b) + c) + d;
  }
}
