/** Unpadded base64url (section 5 of RFC 4648) as every task id, verify key and token
    crosses the wire, with the strict decoder that accepts canonical strings only
    (sections 3.3 and 3.5 of RFC 4648), and the 32-byte task ids built on it. */
module Base64Url {
  import opened Wrappers

  type Sextet = x: int | 0 <= x < 64

  type TaskId = b: Bytes | |b| == 32 witness seq(32, _ => 0)

  // ---------------------------------------------------------------- alphabet

  function Symbol(v: Sextet): (c: char)
  {
    if v < 26 then 'A' + v as char
    else if v < 52 then 'a' + (v - 26) as char
    else if v < 62 then '0' + (v - 52) as char
    else if v == 62 then '-'
    else '_'
  }

  /** Table 2 of RFC 4648: three runs of consecutive characters, upper case, lower case and digits,
      and then '-' and '_'. */
  lemma SymbolsAreTheAlphabet(v: Sextet)
    ensures Symbol(0) == 'A' && Symbol(25) == 'Z' && Symbol(26) == 'a' && Symbol(51) == 'z'
    ensures Symbol(52) == '0' && Symbol(61) == '9' && Symbol(62) == '-' && Symbol(63) == '_'
    ensures v < 61 && v != 25 && v != 51 ==> Symbol(v + 1) == Symbol(v) + 1 as char
  {
  }

  predicate IsSymbol(c: char)
  {
    'A' <= c <= 'Z' || 'a' <= c <= 'z' || '0' <= c <= '9' || c == '-' || c == '_'
  }

  function Digit(c: char): (v: Sextet)
    requires IsSymbol(c)
  {
    if 'A' <= c <= 'Z' then (c - 'A') as int
    else if 'a' <= c <= 'z' then (c - 'a') as int + 26
    else if '0' <= c <= '9' then (c - '0') as int + 52
    else if c == '-' then 62
    else 63
  }

  lemma SymbolDigit(v: Sextet)
    ensures IsSymbol(Symbol(v)) && Digit(Symbol(v)) == v
  {
  }

  lemma DigitSymbol(c: char)
    requires IsSymbol(c)
    ensures Symbol(Digit(c)) == c
  {
  }

  predicate AllSymbols(s: string)
  {
    forall i :: 0 <= i < |s| ==> IsSymbol(s[i])
  }

  function Symbols(ds: seq<Sextet>): (s: string)
  {
    seq(|ds|, i requires 0 <= i < |ds| => Symbol(ds[i]))
  }

  function Digits(s: string): (ds: seq<Sextet>)
    requires AllSymbols(s)
  {
    seq(|s|, i requires 0 <= i < |s| => Digit(s[i]))
  }

  lemma SymbolsDigits(ds: seq<Sextet>)
    ensures AllSymbols(Symbols(ds)) && Digits(Symbols(ds)) == ds
  {
    forall i | 0 <= i < |ds| ensures IsSymbol(Symbols(ds)[i]) && Digit(Symbols(ds)[i]) == ds[i] {
      SymbolDigit(ds[i]);
    }
  }

  lemma DigitsSymbols(s: string)
    requires AllSymbols(s)
    ensures Symbols(Digits(s)) == s
  {
    forall i | 0 <= i < |s| ensures Symbols(Digits(s))[i] == s[i] {
      DigitSymbol(s[i]);
    }
  }

  // ---------------------------------------------------------------- groups of bytes and sextets

  /** Three bytes become four sextets; one or two bytes at the end are filled with zero bits. */
  function Pack(b: Bytes): (ds: seq<Sextet>)
  {
    if |b| == 0 then []
    else if |b| == 1 then [b[0] / 4, b[0] % 4 * 16]
    else if |b| == 2 then [b[0] / 4, b[0] % 4 * 16 + b[1] / 16, b[1] % 16 * 4]
    else PackGroup(b[0], b[1], b[2]) + Pack(b[3..])
  }

  function PackGroup(x: byte, y: byte, z: byte): (ds: seq<Sextet>)
  {
    [x / 4, x % 4 * 16 + y / 16, y % 16 * 4 + z / 64, z % 64]
  }

  /** The strict inverse: impossible lengths and non-zero trailing bits are errors. */
  function Unpack(ds: seq<Sextet>): (r: Result<Bytes>)
  {
    if |ds| == 0 then Ok([])
    else if |ds| == 1 then Err
    else if |ds| == 2 then
      if ds[1] % 16 != 0 then Err else Ok(UnpackGroup(ds[0], ds[1], 0, 0)[..1])
    else if |ds| == 3 then
      if ds[2] % 4 != 0 then Err else Ok(UnpackGroup(ds[0], ds[1], ds[2], 0)[..2])
    else
      match Unpack(ds[4..])
      case Err => Err
      case Ok(rest) => Ok(UnpackGroup(ds[0], ds[1], ds[2], ds[3]) + rest)
  }

  function UnpackGroup(a: Sextet, b: Sextet, c: Sextet, d: Sextet): (g: Bytes)
  {
    [a * 4 + b / 16, b % 16 * 16 + c / 4, c % 4 * 64 + d]
  }

  lemma GroupRoundTrip(x: byte, y: byte, z: byte)
    ensures var g := PackGroup(x, y, z);
            UnpackGroup(g[0], g[1], g[2], g[3]) == [x, y, z]
  {
  }

  lemma GroupNumeral(acc: nat, x: byte, y: byte, z: byte)
    ensures var g := PackGroup(x, y, z);
            (((acc * 64 + g[0]) * 64 + g[1]) * 64 + g[2]) * 64 + g[3]
            == ((acc * 256 + x) * 256 + y) * 256 + z
  {
  }

  lemma GroupBackTrip(a: Sextet, b: Sextet, c: Sextet, d: Sextet)
    ensures var g := UnpackGroup(a, b, c, d);
            PackGroup(g[0], g[1], g[2]) == [a, b, c, d]
  {
    var g := UnpackGroup(a, b, c, d);
    assert g[0] / 4 == a && g[0] % 4 * 16 + g[1] / 16 == b;
    assert g[1] % 16 * 4 + g[2] / 64 == c && g[2] % 64 == d;
  }

  lemma {:induction false} UnpackPack(b: Bytes)
    ensures Unpack(Pack(b)) == Ok(b)
  {
    if |b| == 0 {
    } else if |b| == 1 {
      assert UnpackGroup(Pack(b)[0], Pack(b)[1], 0, 0)[..1] == b;
    } else if |b| == 2 {
      assert UnpackGroup(Pack(b)[0], Pack(b)[1], Pack(b)[2], 0)[..2] == b;
    } else {
      UnpackPack(b[3..]);
      GroupRoundTrip(b[0], b[1], b[2]);
      assert Pack(b)[4..] == Pack(b[3..]);
      assert b == [b[0], b[1], b[2]] + b[3..];
    }
  }

  /** A length some byte string has, and zero bits after the last whole byte. */
  predicate WellPadded(ds: seq<Sextet>)
  {
    && |ds| % 4 != 1
    && (|ds| % 4 == 2 ==> ds[|ds| - 1] % 16 == 0)
    && (|ds| % 4 == 3 ==> ds[|ds| - 1] % 4 == 0)
  }

  lemma {:induction false} PackUnpack(ds: seq<Sextet>)
    ensures Unpack(ds).Ok? <==> WellPadded(ds)
    ensures Unpack(ds).Ok? ==> Pack(Unpack(ds).value) == ds && |Unpack(ds).value| == |ds| * 3 / 4
  {
    if |ds| < 4 {
      PackUnpackShort(ds);
    } else {
      PackUnpack(ds[4..]);
      WellPaddedStep(ds);
      if Unpack(ds[4..]).Ok? { PackUnpackGroup(ds, Unpack(ds[4..]).value); }
    }
  }

  lemma WellPaddedStep(ds: seq<Sextet>)
    requires |ds| >= 4
    ensures WellPadded(ds) <==> WellPadded(ds[4..])
    ensures |ds[4..]| * 3 / 4 + 3 == |ds| * 3 / 4
  {
  }

  lemma PackUnpackShort(ds: seq<Sextet>)
    requires |ds| < 4
    ensures Unpack(ds).Ok? <==> WellPadded(ds)
    ensures Unpack(ds).Ok? ==> Pack(Unpack(ds).value) == ds && |Unpack(ds).value| == |ds| * 3 / 4
  {
    if |ds| == 3 {
      GroupBackTrip(ds[0], ds[1], ds[2], 0);
    } else if |ds| == 2 {
      GroupBackTrip(ds[0], ds[1], 0, 0);
    }
  }

  lemma PackUnpackGroup(ds: seq<Sextet>, rest: Bytes)
    requires |ds| >= 4 && Unpack(ds[4..]) == Ok(rest) && Pack(rest) == ds[4..]
    ensures Unpack(ds).Ok? && Pack(Unpack(ds).value) == ds && |Unpack(ds).value| == 3 + |rest|
  {
    var b := Unpack(ds).value;
    GroupBackTrip(ds[0], ds[1], ds[2], ds[3]);
    assert b[3..] == rest;
    assert ds == [ds[0], ds[1], ds[2], ds[3]] + ds[4..];
  }

  // ---------------------------------------------------------------- text

  function Encode(b: Bytes): (s: string)
  {
    Symbols(Pack(b))
  }

  function Decode(s: string): (r: Result<Bytes>)
  {
    if AllSymbols(s) then Unpack(Digits(s)) else Err
  }

  /** Printing is undone by parsing, for byte strings of every length. */
  lemma DecodeEncode(b: Bytes)
    ensures AllSymbols(Encode(b)) && Decode(Encode(b)) == Ok(b)
  {
    SymbolsDigits(Pack(b));
    UnpackPack(b);
  }

  /** Canonical unpadded base64url (section 3.5 of RFC 4648): alphabet symbols only, so no
      padding character, and no left-over bits. */
  predicate Canonical(s: string)
  {
    AllSymbols(s) && WellPadded(Digits(s))
  }

  /** The decoder accepts exactly the canonical strings, and printing what it read gives the
      string back: no two accepted strings name the same bytes. */
  lemma EncodeDecode(s: string)
    ensures Decode(s).Ok? <==> Canonical(s)
    ensures Decode(s).Ok? ==> Encode(Decode(s).value) == s && |Decode(s).value| == |s| * 3 / 4
  {
    if AllSymbols(s) {
      PackUnpack(Digits(s));
      DigitsSymbols(s);
    }
  }

  // ---------------------------------------------------------------- meaning as a numeral

  /** The number whose base-256 digits after `acc` are `b`, most significant first. */
  function Base256(acc: nat, b: Bytes): nat
    decreases |b|
  {
    if b == [] then acc else Base256(acc * 256 + b[0], b[1..])
  }

  /** The number whose base-64 digits after `acc` are `ds`, most significant first. */
  function Base64(acc: nat, ds: seq<Sextet>): nat
    decreases |ds|
  {
    if ds == [] then acc else Base64(acc * 64 + ds[0], ds[1..])
  }

  /** `v` followed by the zero bits that fill the last symbol of `n` bytes. */
  function Padded(v: nat, n: nat): nat
  {
    if n % 3 == 0 then v else if n % 3 == 1 then 16 * v else 4 * v
  }

  lemma {:induction false} PackIsBase64Numeral(acc: nat, b: Bytes)
    ensures Base64(acc, Pack(b)) == Padded(Base256(acc, b), |b|)
    decreases |b|
  {
    if b == [] {
    } else if |b| == 1 {
      LastByte(acc, b);
    } else if |b| == 2 {
      LastTwoBytes(acc, b);
    } else {
      var high := ThreeBytes(acc, b);
      PackIsBase64Numeral(high, b[3..]);
      assert |b[3..]| % 3 == |b| % 3;
    }
  }

  lemma {:induction false} PackLength(b: Bytes)
    ensures |Pack(b)| == (|b| * 4 + 2) / 3
  {
    if |b| < 3 {
    } else {
      PackLength(b[3..]);
      assert Pack(b) == PackGroup(b[0], b[1], b[2]) + Pack(b[3..]);
    }
  }

  lemma LastByte(acc: nat, b: Bytes)
    requires |b| == 1
    ensures Base64(acc, Pack(b)) == 16 * Base256(acc, b)
  {
    var x: int := b[0];
    var ds := [x / 4, x % 4 * 16];
    assert Pack(b) == ds && b[1..] == [] && ds[1..][1..] == [];
    assert Base256(acc, b) == acc * 256 + x;
    assert Base64(acc, ds) == Base64(acc * 64 + x / 4, ds[1..]) == (acc * 64 + x / 4) * 64 + x % 4 * 16;
  }

  lemma LastTwoBytes(acc: nat, b: Bytes)
    requires |b| == 2
    ensures Base64(acc, Pack(b)) == 4 * Base256(acc, b)
  {
    var x: int, y: int := b[0], b[1];
    var ds := [x / 4, x % 4 * 16 + y / 16, y % 16 * 4];
    assert Pack(b) == ds;
    assert Base256(acc, b) == (acc * 256 + x) * 256 + y by {
      assert b[1..] == [y] && [y][1..] == [];
      assert Base256(acc, b) == Base256(acc * 256 + x, [y]);
    }
    ThreeSextets(acc, ds);
  }

  lemma ThreeSextets(acc: nat, ds: seq<Sextet>)
    requires |ds| == 3
    ensures Base64(acc, ds) == ((acc * 64 + ds[0]) * 64 + ds[1]) * 64 + ds[2]
  {
    assert ds[1..][1..] == ds[2..] && ds[2..][1..] == [];
    var one := acc * 64 + ds[0];
    var two := one * 64 + ds[1];
    assert Base64(acc, ds) == Base64(one, ds[1..]) == Base64(two, ds[2..]);
  }

  /** One full group moves the same number into both accumulators. */
  lemma ThreeBytes(acc: nat, b: Bytes) returns (high: nat)
    requires |b| >= 3
    ensures Base256(acc, b) == Base256(high, b[3..])
    ensures Base64(acc, Pack(b)) == Base64(high, Pack(b[3..]))
  {
    high := ((acc * 256 + b[0]) * 256 + b[1]) * 256 + b[2];
    BytesStep(acc, b);
    GroupNumeral(acc, b[0], b[1], b[2]);
    FourSextets(acc, high, PackGroup(b[0], b[1], b[2]), Pack(b[3..]));
  }

  lemma BytesStep(acc: nat, b: Bytes)
    requires |b| >= 3
    ensures Base256(acc, b) == Base256(((acc * 256 + b[0]) * 256 + b[1]) * 256 + b[2], b[3..])
  {
    assert b[1..][1..] == b[2..] && b[2..][1..] == b[3..];
    var one := acc * 256 + b[0];
    var two := one * 256 + b[1];
    assert Base256(acc, b) == Base256(one, b[1..]) == Base256(two, b[2..]);
  }

  lemma FourSextets(acc: nat, high: nat, g: seq<Sextet>, rest: seq<Sextet>)
    requires |g| == 4 && high == (((acc * 64 + g[0]) * 64 + g[1]) * 64 + g[2]) * 64 + g[3]
    ensures Base64(acc, g + rest) == Base64(high, rest)
  {
    var ds := g + rest;
    assert ds[1..][1..] == ds[2..] && ds[2..][1..] == ds[3..] && ds[3..][1..] == rest;
    var one := acc * 64 + ds[0];
    var two := one * 64 + ds[1];
    var three := two * 64 + ds[2];
    assert Base64(acc, ds) == Base64(one, ds[1..]) == Base64(two, ds[2..]) == Base64(three, ds[3..]);
  }

  /** Independent meaning of the printed text: read as a base-64 numeral it is the bytes'
      big-endian number followed by the padding bits, in the fewest symbols that hold it. */
  lemma {:induction false} EncodeIsNumeral(b: Bytes)
    ensures AllSymbols(Encode(b)) && |Encode(b)| == (|b| * 4 + 2) / 3
    ensures Base64(0, Digits(Encode(b))) == Padded(Base256(0, b), |b|)
  {
    SymbolsDigits(Pack(b));
    PackLength(b);
    PackIsBase64Numeral(0, b);
  }

  // ---------------------------------------------------------------- task ids

  function TaskIdToString(t: TaskId): (s: string)
  {
    Encode(t)
  }

  /** `TaskId::get_decoded` takes exactly 32 bytes: fewer are missing, more are left over. */
  function TaskIdFromString(s: string): (r: Result<TaskId>)
  {
    match Decode(s)
    case Err => Err
    case Ok(b) => if |b| == 32 then Ok(b) else Err
  }

  /** The codec is a bijection between task ids and canonical 43-symbol strings. */
  lemma TaskIdBijection(t: TaskId, s: string)
    ensures TaskIdFromString(TaskIdToString(t)) == Ok(t)
    ensures TaskIdFromString(s).Ok? <==> Canonical(s) && |s| == 43
    ensures TaskIdFromString(s) == Ok(t) <==> TaskIdToString(t) == s
  {
    DecodeEncode(t);
    EncodeDecode(s);
  }
}
