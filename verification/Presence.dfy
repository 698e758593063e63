/** The typed presence code (src/credential_v2/presence.rs): two secrets and a
    checksum, 272 bits in 55 base-32 symbols with three zero bits of padding. */
module PresenceCodes {
  import opened Base
  import opened V2
  import opened Octets

  // ---------------------------------------------------------------- bits

  /** The low `width` bits of `n`, most significant first. */
  function BitsOf(n: nat, width: nat): (r: seq<Bit>)
    ensures |r| == width
  {
    if width == 0 then [] else BitsOf(n / 2, width - 1) + [n % 2]
  }

  function FromBits(bits: seq<Bit>): (r: nat) {
    if bits == [] then 0 else 2 * FromBits(bits[..|bits| - 1]) + bits[|bits| - 1]
  }

  lemma {:induction false} FromBitsInverts(n: nat, width: nat)
    requires n < Pow2(width)
    ensures FromBits(BitsOf(n, width)) == n
  {
    if width > 0 {
      FromBitsInverts(n / 2, width - 1);
      assert BitsOf(n, width)[..width - 1] == BitsOf(n / 2, width - 1);
    }
  }

  lemma {:induction false} BitsOfInverts(bits: seq<Bit>)
    ensures FromBits(bits) < Pow2(|bits|) && BitsOf(FromBits(bits), |bits|) == bits
  {
    if bits != [] {
      BitsOfInverts(bits[..|bits| - 1]);
      assert bits == bits[..|bits| - 1] + [bits[|bits| - 1]];
    }
  }

  /** The bits of several numbers in a row. */
  function Spread(values: seq<nat>, width: nat): seq<Bit> {
    if values == [] then [] else Spread(values[..|values| - 1], width) + BitsOf(values[|values| - 1], width)
  }

  lemma {:induction false} SpreadLength(values: seq<nat>)
    ensures |Spread(values, 5)| == 5 * |values| && |Spread(values, 8)| == 8 * |values|
  {
    if values != [] { SpreadLength(values[..|values| - 1]); }
  }

  /** Consecutive groups of `width` bits as numbers; a short last group is dropped. */
  function Chunk(bits: seq<Bit>, width: nat): seq<nat>
    requires width > 0
    decreases |bits|
  {
    if |bits| < width then [] else Chunk(bits[..|bits| - width], width) + [FromBits(bits[|bits| - width..])]
  }

  lemma ChunkAppend(front: seq<Bit>, last: seq<Bit>, width: nat)
    requires width > 0 && |last| == width
    ensures Chunk(front + last, width) == Chunk(front, width) + [FromBits(last)]
  {
    var bits := front + last;
    assert |bits| - width == |front| && bits[..|front|] == front && bits[|front|..] == last;
  }

  lemma SpreadAppend(values: seq<nat>, value: nat, width: nat)
    ensures Spread(values + [value], width) == Spread(values, width) + BitsOf(value, width)
  {
    assert (values + [value])[..|values|] == values;
  }

  lemma NothingSpread(width: nat)
    requires width > 0
    ensures Spread([], width) == [] && Chunk([], width) == []
  {
  }

  lemma {:induction false} ChunkInverts(values: seq<nat>, width: nat)
    requires width > 0 && forall i :: 0 <= i < |values| ==> values[i] < Pow2(width)
    ensures Chunk(Spread(values, width), width) == values
  {
    hide Spread, Chunk, BitsOf, FromBits, Pow2;
    if values == [] {
      NothingSpread(width);
    } else {
      var n := |values| - 1;
      assert values == values[..n] + [values[n]];
      SpreadAppend(values[..n], values[n], width);
      ChunkInverts(values[..n], width);
      ChunkAppend(Spread(values[..n], width), BitsOf(values[n], width), width);
      FromBitsInverts(values[n], width);
    }
  }

  /** `count` groups of `width` bits, no more and no less. */
  predicate Fills(bits: seq<Bit>, width: nat, count: nat)
    decreases count
  {
    if count == 0 then bits == [] else |bits| >= width && Fills(bits[..|bits| - width], width, count - 1)
  }

  lemma {:induction false} FillsByLength(bits: seq<Bit>, count: nat)
    ensures |bits| == 5 * count ==> Fills(bits, 5, count)
    ensures |bits| == 8 * count ==> Fills(bits, 8, count)
  {
    if count > 0 {
      if |bits| == 5 * count { FillsByLength(bits[..|bits| - 5], count - 1); }
      if |bits| == 8 * count { FillsByLength(bits[..|bits| - 8], count - 1); }
    }
  }

  lemma {:induction false} SpreadInverts(bits: seq<Bit>, width: nat, count: nat)
    requires width > 0 && Fills(bits, width, count)
    ensures Spread(Chunk(bits, width), width) == bits && |Chunk(bits, width)| == count
    ensures forall i :: 0 <= i < |Chunk(bits, width)| ==> Chunk(bits, width)[i] < Pow2(width)
    decreases count
  {
    hide Spread, Chunk, BitsOf, FromBits, Pow2;
    if count == 0 {
      NothingSpread(width);
    } else {
      var front, last := bits[..|bits| - width], bits[|bits| - width..];
      assert bits == front + last;
      hide Fills;
      SpreadInverts(front, width, count - 1);
      BitsOfInverts(last);
      ChunkAppend(front, last, width);
      SpreadAppend(Chunk(front, width), FromBits(last), width);
    }
  }

  // ---------------------------------------------------------------- payload and symbols

  const SYMBOLS: nat := 55
  const DATA_BITS: nat := 272

  /** 55 five-bit symbols of a 34-octet payload, the last padded with three zeros. */
  function SymbolsOf(payload: Bytes): seq<nat>
    requires |payload| == 34
  {
    Chunk(Spread(payload, 8) + [0, 0, 0], 5)
  }

  /** The payload of 55 symbols, unless a padding bit is set. */
  function PayloadOf(symbols: seq<nat>): Option<Bytes>
    requires |symbols| == SYMBOLS
  {
    SpreadLength(symbols);
    var bits := Spread(symbols, 5);
    FillsByLength(bits[..DATA_BITS], 34);
    SpreadInverts(bits[..DATA_BITS], 8, 34);
    PowersOfTwo();
    if bits[DATA_BITS..] == [0, 0, 0] then Some(Chunk(bits[..DATA_BITS], 8)) else None
  }

  lemma PowersOfTwo()
    ensures Pow2(5) == 32 && Pow2(8) == 256
  {
    assert Pow2(3) == 8 && Pow2(6) == 64;
  }

  lemma PayloadReturns(payload: Bytes)
    requires |payload| == 34
    ensures |SymbolsOf(payload)| == SYMBOLS && forall i :: 0 <= i < SYMBOLS ==> SymbolsOf(payload)[i] < 32
    ensures PayloadOf(SymbolsOf(payload)) == Some(payload)
  {
    PowersOfTwo();
    SpreadLength(payload);
    var bits := Spread(payload, 8) + [0, 0, 0];
    FillsByLength(bits, SYMBOLS);
    SpreadInverts(bits, 5, SYMBOLS);
    assert bits[..DATA_BITS] == Spread(payload, 8) && bits[DATA_BITS..] == [0, 0, 0];
    ChunkInverts(payload, 8);
  }

  lemma SymbolsReturn(symbols: seq<nat>)
    requires |symbols| == SYMBOLS && forall i :: 0 <= i < SYMBOLS ==> symbols[i] < 32
    requires PayloadOf(symbols).Some?
    ensures |PayloadOf(symbols).value| == 34 && SymbolsOf(PayloadOf(symbols).value) == symbols
  {
    PowersOfTwo();
    SpreadLength(symbols);
    var bits := Spread(symbols, 5);
    FillsByLength(bits[..DATA_BITS], 34);
    SpreadInverts(bits[..DATA_BITS], 8, 34);
    assert bits == bits[..DATA_BITS] + bits[DATA_BITS..];
    ChunkInverts(symbols, 5);
  }

  // ---------------------------------------------------------------- text

  const PREFIX: string := "PAIR1"
  const ALPHABET: string := "0123456789ABCDEFGHJKMNPQRSTVWXYZ"

  function UpperChar(c: char): char { if 'a' <= c <= 'z' then c - 'a' + 'A' else c }

  function Upper(s: string): (r: string)
    ensures |r| == |s| && forall i :: 0 <= i < |s| ==> r[i] == UpperChar(s[i])
  {
    seq(|s|, i requires 0 <= i < |s| => UpperChar(s[i]))
  }

  predicate IsAscii(s: string) { forall i :: 0 <= i < |s| ==> s[i] as int < 128 }

  function Split(s: string): (r: seq<string>)
    ensures |r| >= 1
  {
    if s == [] then [""]
    else
      var rest := Split(s[1..]);
      if s[0] == '-' then [""] + rest else [[s[0]] + rest[0]] + rest[1..]
  }

  function Join(groups: seq<string>): string
    requires groups != []
  {
    if |groups| == 1 then groups[0] else groups[0] + "-" + Join(groups[1..])
  }

  lemma {:induction false} JoinSplit(s: string)
    ensures Join(Split(s)) == s
  {
    if s != [] {
      JoinSplit(s[1..]);
      var rest := Split(s[1..]);
      if s[0] == '-' {
        assert ([""] + rest)[1..] == rest;
        assert Join([""] + rest) == "-" + Join(rest);
      } else {
        var groups := [[s[0]] + rest[0]] + rest[1..];
        assert groups[1..] == rest[1..];
        assert Join(groups) == [s[0]] + Join(rest);
      }
      assert s == [s[0]] + s[1..];
    }
  }

  lemma {:induction false} SplitPlain(group: string, tail: string)
    requires '-' !in group
    ensures Split(group + "-" + tail) == [group] + Split(tail)
    ensures Split(group) == [group]
  {
    if group == "" {
      assert ("" + "-" + tail)[1..] == tail;
    } else {
      SplitPlain(group[1..], tail);
      assert (group + "-" + tail)[1..] == group[1..] + "-" + tail;
      assert group == [group[0]] + group[1..];
      assert ([group[1..]] + Split(tail))[1..] == Split(tail);
    }
  }

  lemma {:induction false} SplitJoin(groups: seq<string>)
    requires groups != [] && forall i :: 0 <= i < |groups| ==> '-' !in groups[i]
    ensures Split(Join(groups)) == groups
  {
    if |groups| == 1 {
      SplitPlain(groups[0], "");
    } else {
      SplitJoin(groups[1..]);
      SplitPlain(groups[0], Join(groups[1..]));
    }
  }

  function Flat(groups: seq<string>): string { if groups == [] then "" else groups[0] + Flat(groups[1..]) }

  /** Groups of five. */
  function Groups(s: string): seq<string>
    decreases |s|
  {
    if |s| < 5 then [] else [s[..5]] + Groups(s[5..])
  }

  lemma {:induction false} GroupsFlat(groups: seq<string>)
    requires forall i :: 0 <= i < |groups| ==> |groups[i]| == 5
    ensures Groups(Flat(groups)) == groups && |Flat(groups)| == 5 * |groups|
  {
    if groups != [] {
      GroupsFlat(groups[1..]);
      assert Flat(groups)[..5] == groups[0] && Flat(groups)[5..] == Flat(groups[1..]);
    }
  }

  lemma {:induction false} FlatGroups(s: string, count: nat)
    requires |s| == 5 * count
    ensures Flat(Groups(s)) == s && |Groups(s)| == count
    ensures forall i :: 0 <= i < |Groups(s)| ==> |Groups(s)[i]| == 5 && forall c | c in Groups(s)[i] :: c in s
    decreases count
  {
    if count > 0 {
      FlatGroups(s[5..], count - 1);
      assert s == s[..5] + s[5..];
      assert ([s[..5]] + Groups(s[5..]))[1..] == Groups(s[5..]);
    }
  }

  // ---------------------------------------------------------------- symbols and characters

  function Position(c: char, from: nat): (r: Option<nat>)
    requires from <= 32
    ensures r.Some? ==> from <= r.value < 32 && ALPHABET[r.value] == c
    ensures r.None? ==> forall i :: from <= i < 32 ==> ALPHABET[i] != c
    decreases 32 - from
  {
    if from == 32 then None else if ALPHABET[from] == c then Some(from) else Position(c, from + 1)
  }

  lemma AlphabetAscends()
    ensures |ALPHABET| == 32 && forall i :: 0 <= i < 31 ==> ALPHABET[i] < ALPHABET[i + 1]
  {
  }

  lemma {:induction false} AlphabetApart(i: nat, j: nat)
    requires i < j < 32
    ensures ALPHABET[i] < ALPHABET[j]
  {
    AlphabetAscends();
    if i + 1 < j { AlphabetApart(i, j - 1); }
  }

  lemma PositionFinds(v: nat)
    requires v < 32
    ensures Position(ALPHABET[v], 0) == Some(v)
  {
    var r := Position(ALPHABET[v], 0);
    assert r.Some?;
    if r.value < v { AlphabetApart(r.value, v); } else if r.value > v { AlphabetApart(v, r.value); }
  }

  function Characters(symbols: seq<nat>): (r: string)
    requires forall i :: 0 <= i < |symbols| ==> symbols[i] < 32
    ensures |r| == |symbols| && forall i :: 0 <= i < |symbols| ==> r[i] == ALPHABET[symbols[i]]
  {
    seq(|symbols|, i requires 0 <= i < |symbols| => ALPHABET[symbols[i]])
  }

  function ReadCharacters(s: string): (r: Option<seq<nat>>)
    ensures r.Some? ==> |r.value| == |s| && forall i :: 0 <= i < |s| ==> r.value[i] < 32 && ALPHABET[r.value[i]] == s[i]
  {
    if s == "" then Some([])
    else
      var front := ReadCharacters(s[..|s| - 1]);
      var last := Position(s[|s| - 1], 0);
      if front.None? || last.None? then None else Some(front.value + [last.value])
  }

  lemma {:induction false} CharactersReturn(symbols: seq<nat>)
    requires forall i :: 0 <= i < |symbols| ==> symbols[i] < 32
    ensures ReadCharacters(Characters(symbols)) == Some(symbols)
  {
    if symbols != [] {
      var n := |symbols| - 1;
      assert Characters(symbols)[..n] == Characters(symbols[..n]);
      CharactersReturn(symbols[..n]);
      PositionFinds(symbols[n]);
      assert symbols == symbols[..n] + [symbols[n]];
    }
  }

  /** Every printed character stands for itself in upper case, and none is a dash. */
  lemma PrintedCharacters(c: char)
    requires c in ALPHABET
    ensures UpperChar(c) == c && c != '-' && c as int < 128
  {
  }

  // ---------------------------------------------------------------- the code

  type Checksum = s: Bytes | |s| == 2 witness [0, 0]

  datatype Code = Code(secret: Bytes16, token: Bytes16)

  function Payload(check: (Bytes16, Bytes16) -> Checksum, code: Code): (r: Bytes)
    ensures |r| == 34
  {
    code.secret + code.token + check(code.secret, code.token)
  }

  function CharactersOf(check: (Bytes16, Bytes16) -> Checksum, code: Code): string {
    PayloadReturns(Payload(check, code));
    Characters(SymbolsOf(Payload(check, code)))
  }

  /** `Display` */
  function Print(check: (Bytes16, Bytes16) -> Checksum, code: Code): string {
    Join([PREFIX] + Groups(CharactersOf(check, code)))
  }

  function ReadPayload(check: (Bytes16, Bytes16) -> Checksum, payload: Bytes): Outcome<Code>
    requires |payload| == 34
  {
    var code := Code(payload[..16], payload[16..32]);
    if check(code.secret, code.token) != payload[32..] then Err(ProfileFault) else Ok(code)
  }

  /** `FromStr` */
  function Parse(check: (Bytes16, Bytes16) -> Checksum, input: string): Outcome<Code> {
    if !IsAscii(input) then Err(SchemaFault)
    else
      var parts := Split(Upper(input));
      var groups := parts[1..];
      if parts[0] != PREFIX || |groups| != 11 || exists i :: 0 <= i < |groups| && |groups[i]| != 5 then Err(SchemaFault)
      else
        GroupsFlat(groups);
        var symbols := ReadCharacters(Flat(groups));
        if symbols.None? || PayloadOf(symbols.value).None? then Err(SchemaFault)
        else
          SymbolsReturn(symbols.value);
          ReadPayload(check, PayloadOf(symbols.value).value)
  }

  lemma UpperFixed(s: string)
    requires forall c | c in s :: UpperChar(c) == c
    ensures Upper(s) == s
  {
  }

  lemma {:induction false} JoinOf(groups: seq<string>, c: char)
    requires groups != [] && c in Join(groups)
    ensures c == '-' || exists i :: 0 <= i < |groups| && c in groups[i]
  {
    if |groups| > 1 && c in Join(groups[1..]) && c != '-' {
      JoinOf(groups[1..], c);
      var i :| 0 <= i < |groups[1..]| && c in groups[1..][i];
      assert c in groups[i + 1];
    }
  }

  /** Text that survives splitting, upper-casing and the ASCII test. */
  predicate Plain(s: string) { forall c | c in s :: c != '-' && UpperChar(c) == c && c as int < 128 }

  lemma PlainGroups(characters: string)
    requires |characters| == 55 && forall c | c in characters :: c in ALPHABET
    ensures |Groups(characters)| == 11 && forall i :: 0 <= i < 11 ==> Plain(Groups(characters)[i])
  {
    hide Groups;
    FlatGroups(characters, 11);
    forall i | 0 <= i < 11 ensures Plain(Groups(characters)[i]) {
      forall c | c in Groups(characters)[i]
          ensures c != '-' && UpperChar(c) == c && c as int < 128 { PrintedCharacters(c); }
    }
  }

  lemma JoinedPlain(groups: seq<string>)
    requires groups != [] && forall i :: 0 <= i < |groups| ==> Plain(groups[i])
    ensures Split(Join(groups)) == groups && Upper(Join(groups)) == Join(groups) && IsAscii(Join(groups))
  {
    SplitJoin(groups);
    forall c | c in Join(groups) ensures UpperChar(c) == c && c as int < 128 { JoinOf(groups, c); }
    UpperFixed(Join(groups));
  }

  lemma PrintedText(check: (Bytes16, Bytes16) -> Checksum, code: Code)
    ensures var groups := [PREFIX] + Groups(CharactersOf(check, code));
            && Split(Print(check, code)) == groups && |groups| == 12
            && Upper(Print(check, code)) == Print(check, code) && IsAscii(Print(check, code))
  {
    hide SymbolsOf, Split, Join, Groups;
    PayloadReturns(Payload(check, code));
    var characters := CharactersOf(check, code);
    PlainGroups(characters);
    assert Plain(PREFIX);
    var groups := [PREFIX] + Groups(characters);
    forall i | 0 <= i < |groups| ensures Plain(groups[i]) { if i > 0 { assert groups[i]
        == Groups(characters)[i - 1]; } }
    hide Plain;
    JoinedPlain(groups);
  }

  /** Parsing a printed code returns both secrets. */
  lemma PrintedParses(check: (Bytes16, Bytes16) -> Checksum, code: Code)
    ensures Parse(check, Print(check, code)) == Ok(code)
  {
    hide SymbolsOf, PayloadOf, Split, Print;
    var payload := Payload(check, code);
    PayloadReturns(payload);
    PrintedText(check, code);
    var characters := CharactersOf(check, code);
    FlatGroups(characters, 11);
    CharactersReturn(SymbolsOf(payload));
    assert ([PREFIX] + Groups(characters))[1..] == Groups(characters);
    assert payload[..16] == code.secret && payload[16..32] == code.token
           && payload[32..] == check(code.secret, code.token);
  }

  /** Any accepted text, printed back, is that text in upper case. */
  lemma AcceptedPrintsBack(check: (Bytes16, Bytes16) -> Checksum, input: string)
    requires Parse(check, input).Ok?
    ensures Print(check, Parse(check, input).value) == Upper(input)
  {
    hide SymbolsOf, PayloadOf, Split, Join;
    var parts := Split(Upper(input));
    var groups := parts[1..];
    GroupsFlat(groups);
    var symbols := ReadCharacters(Flat(groups)).value;
    SymbolsReturn(symbols);
    var payload := PayloadOf(symbols).value;
    var code := Parse(check, input).value;
    assert Payload(check, code) == payload;
    assert Characters(symbols) == Flat(groups);
    assert parts == [PREFIX] + groups;
    JoinSplit(Upper(input));
  }

  // ---------------------------------------------------------------- the program's bit loops

  lemma {:induction false} BitsOfAt(n: nat, width: nat, i: nat)
    requires i < width
    ensures BitsOf(n, width)[i] == BitOf(n, width - 1 - i)
  {
    if i < width - 1 { BitsOfAt(n / 2, width - 1, i); }
  }

  /** Bit `p` of the payload, most significant first, as the shifts pick it. */
  function PayloadBit(payload: Bytes, p: nat): Bit
    requires p < 8 * |payload|
  {
    BitOf(payload[p / 8], 7 - p % 8)
  }

  lemma {:induction false} SpreadAt(payload: Bytes, p: nat)
    requires p < 8 * |payload|
    ensures p < |Spread(payload, 8)| && Spread(payload, 8)[p] == PayloadBit(payload, p)
  {
    var n := |payload| - 1;
    var front, last := Spread(payload[..n], 8), BitsOf(payload[n], 8);
    assert Spread(payload, 8) == front + last;
    hide Spread, BitsOf, BitOf;
    SpreadLength(payload[..n]);
    if p < 8 * n {
      SpreadAt(payload[..n], p);
    } else {
      BitsOfAt(payload[n], 8, p - 8 * n);
      assert p / 8 == n && p % 8 == p - 8 * n;
    }
  }

  lemma FromBitsStep(all: seq<Bit>, lo: nat, k: nat)
    requires lo + k < |all|
    ensures FromBits(all[lo..lo + k + 1]) == 2 * FromBits(all[lo..lo + k]) + all[lo + k]
  {
    assert all[lo..lo + k + 1][..k] == all[lo..lo + k];
  }

  /** The nested loops of `Display`: one bit of the payload after another. */
  method WriteSymbols(payload: Bytes) returns (symbols: seq<nat>)
    requires |payload| == 34
    ensures symbols == SymbolsOf(payload)
  {
    ghost var all := Spread(payload, 8) + [0, 0, 0];
    SpreadLength(payload);
    NothingSpread(5);
    assert all[..0] == [];
    hide Spread, BitOf, Chunk;
    symbols := [];
    for symbol := 0 to SYMBOLS
      invariant symbols == Chunk(all[..5 * symbol], 5)
    {
      var first := symbol * 5;
      var value: nat := 0;
      for bit := 0 to 5
        invariant value == FromBits(all[first..first + bit])
      {
        hide FromBits;
        var position := first + bit;
        FromBitsStep(all, first, bit);
        value := 2 * value;
        if position < DATA_BITS {
          SpreadAt(payload, position);
          value := value + PayloadBit(payload, position);
        }
      }
      assert all[..first + 5] == all[..first] + all[first..first + 5];
      ChunkAppend(all[..first], all[first..first + 5], 5);
      symbols := symbols + [value];
    }
    assert all[..5 * SYMBOLS] == all;
  }

  /** `octet |= set << k` */
  function WithBit(octet: u8, k: nat, bit: Bit): u8
    requires k < 8
  {
    PowersOfTwo();
    AddedBitFits(octet, k, 8);
    if bit == 1 && BitOf(octet, k) == 0 then octet + Pow2(k) else octet
  }

  lemma {:induction false} AddedBitFits(n: nat, k: nat, width: nat)
    requires n < Pow2(width) && k < width
    ensures BitOf(n, k) == 0 ==> n + Pow2(k) < Pow2(width)
  {
    if k > 0 { AddedBitFits(n / 2, k - 1, width - 1); }
  }

  lemma {:induction false} AddedBit(n: nat, k: nat, j: nat)
    requires BitOf(n, k) == 0
    ensures BitOf(n + Pow2(k), j) == if j == k then 1 else BitOf(n, j)
  {
    if k > 0 {
      assert (n + Pow2(k)) / 2 == n / 2 + Pow2(k - 1) && (n + Pow2(k)) % 2 == n % 2;
      if j > 0 { AddedBit(n / 2, k - 1, j - 1); }
    } else {
      assert (n + 1) / 2 == n / 2;
    }
  }

  /** What the buffer holds once the first `done` bits are in. */
  ghost predicate Filled(payload: Bytes, bits: seq<Bit>, done: nat) {
    |payload| == 34 && |bits| == 275
    && forall p :: 0 <= p < DATA_BITS ==> PayloadBit(payload, p) == if p < done then bits[p] else 0
  }

  lemma FillOne(payload: Bytes, bits: seq<Bit>, position: nat)
    requires Filled(payload, bits, position) && position < DATA_BITS
    ensures Filled(payload[position / 8 := WithBit(payload[position / 8], 7 - position % 8, bits[position])], bits,
            position + 1)
  {
    hide BitOf, Pow2;
    var i, k := position / 8, 7 - position % 8;
    var next := payload[i := WithBit(payload[i], k, bits[position])];
    assert BitOf(payload[i], k) == PayloadBit(payload, position) == 0;
    forall p | 0 <= p < DATA_BITS ensures PayloadBit(next, p) == if p < position + 1 then bits[p] else 0 {
      assert PayloadBit(payload, p) == if p < position then bits[p] else 0;
      if p / 8 == i {
        AddedBit(payload[i], k, 7 - p % 8);
        assert p == position <==> 7 - p % 8 == k;
      }
    }
  }

  lemma BlankIsEmpty(payload: Bytes, bits: seq<Bit>)
    requires |payload| == 34 && |bits| == 275 && forall i :: 0 <= i < 34 ==> payload[i] == 0
    ensures Filled(payload, bits, 0)
  {
    forall p | 0 <= p < DATA_BITS ensures PayloadBit(payload, p) == 0 { ZeroBits(7 - p % 8); }
  }

  lemma {:induction false} ZeroBits(k: nat)
    ensures BitOf(0, k) == 0
  {
    if k > 0 { ZeroBits(k - 1); }
  }

  /** A full buffer is the decoded payload. */
  lemma FullIsPayload(payload: Bytes, symbols: seq<nat>)
    requires |symbols| == SYMBOLS && Filled(payload, Spread(symbols, 5), DATA_BITS)
    ensures payload == Chunk(Spread(symbols, 5)[..DATA_BITS], 8)
  {
    hide Spread, Pow2;
    SpreadLength(payload);
    var bits := Spread(symbols, 5)[..DATA_BITS];
    forall p | 0 <= p < DATA_BITS ensures Spread(payload, 8)[p] == bits[p] { SpreadAt(payload, p); }
    assert Spread(payload, 8) == bits;
    PowersOfTwo();
    ChunkInverts(payload, 8);
  }

  lemma {:induction false} SymbolBit(symbols: seq<nat>, symbol: nat, bit: nat)
    requires symbol < |symbols| && bit < 5
    ensures 5 * symbol + bit < |Spread(symbols, 5)|
            && Spread(symbols, 5)[5 * symbol + bit] == BitOf(symbols[symbol], 4 - bit)
  {
    var n := |symbols| - 1;
    var front, last := Spread(symbols[..n], 5), BitsOf(symbols[n], 5);
    assert Spread(symbols, 5) == front + last;
    hide Spread, BitsOf, BitOf;
    SpreadLength(symbols[..n]);
    if symbol < n {
      SymbolBit(symbols[..n], symbol, bit);
    } else {
      BitsOfAt(symbols[n], 5, bit);
    }
  }

  /** The nested loops of `FromStr`: each bit goes to its place in a 34-octet buffer, and
      a padding bit that is set refuses the text. */
  method ReadSymbols(symbols: seq<nat>) returns (r: Option<Bytes>)
    requires |symbols| == SYMBOLS
    ensures r == PayloadOf(symbols)
  {
    var payload := new u8[34](_ => 0);
    ghost var bits := Spread(symbols, 5);
    SpreadLength(symbols);
    BlankIsEmpty(payload[..], bits);
    hide Spread, BitOf, Filled, Chunk, WithBit;
    for symbol := 0 to SYMBOLS
      invariant Filled(payload[..], bits, Min(5 * symbol, DATA_BITS))
      invariant forall p :: DATA_BITS <= p < 5 * symbol ==> bits[p] == 0
    {
      for bit := 0 to 5
        invariant Filled(payload[..], bits, Min(5 * symbol + bit, DATA_BITS))
        invariant forall p :: DATA_BITS <= p < 5 * symbol + bit ==> bits[p] == 0
      {
        var position := symbol * 5 + bit;
        var flag := BitOf(symbols[symbol], 4 - bit);
        SymbolBit(symbols, symbol, bit);
        if position < DATA_BITS {
          FillOne(payload[..], bits, position);
          ghost var next := payload[..][position / 8 := WithBit(payload[position / 8], 7 - position % 8, flag)];
          payload[position / 8] := WithBit(payload[position / 8], 7 - position % 8, flag);
          assert payload[..] == next;
        } else if flag != 0 {
          assert bits[DATA_BITS..][position - DATA_BITS] != 0;
          return None;
        }
      }
    }
    assert bits[DATA_BITS..] == [0, 0, 0];
    FullIsPayload(payload[..], symbols);
    return Some(payload[..]);
  }
}
