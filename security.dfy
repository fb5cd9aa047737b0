/** Password records of the form "saltHex:hashHex": the hex codec exactly as
    the browser code writes it (`toString(16)` padded to two digits; decoding
    with `match(/.{1,2}/g)`, `parseInt(piece, 16)` and the Uint8Array
    conversion), the record format, and the split-and-compare verification.
    The key derivation (PBKDF2 with SHA-256, 100000 iterations, 256-bit key)
    is a parameter: any deterministic function to 32 bytes. */
module Security {
  import opened Common

  type byte = x: int | 0 <= x < 256

  /** The 16 random bytes `crypto.getRandomValues(new Uint8Array(16))` yields. */
  type Salt = s: seq<byte> | |s| == 16 witness [0, 0, 0, 0, 0, 0, 0, 0, 0, 0, 0, 0, 0, 0, 0, 0]

  /** The raw export of a 256-bit AES-GCM key. */
  type Key = k: seq<byte> | |k| == 32
    witness [0, 0, 0, 0, 0, 0, 0, 0, 0, 0, 0, 0, 0, 0, 0, 0, 0, 0, 0, 0, 0, 0, 0, 0, 0, 0, 0, 0, 0, 0, 0, 0]

  /** The key derivation from a password and a salt. */
  type Kdf = (string, seq<byte>) -> Key

  /** The digits `toString(16)` writes: 0-9 and lower-case a-f. */
  predicate IsLowerHex(c: char) {
    '0' <= c <= '9' || 'a' <= c <= 'f'
  }

  function DigitChar(d: int): (c: char)
    requires 0 <= d < 16
    ensures IsLowerHex(c)
  {
    if d < 10 then ('0' as int + d) as char else ('a' as int + d - 10) as char
  }

  /** `b.toString(16)`: lower-case digits without leading zeros. */
  function ToString16(b: byte): string {
    if b < 16 then [DigitChar(b)] else [DigitChar(b / 16), DigitChar(b % 16)]
  }

  /** `s.padStart(2, '0')`. */
  function PadStart2(s: string): string {
    if |s| < 2 then seq(2 - |s|, _ => '0') + s else s
  }

  /** One byte as the encoder writes it: always two lower-case digits, the
      high nibble first, zero-padded. */
  function ByteToHex(b: byte): (r: string)
    ensures |r| == 2 && r[0] == DigitChar(b / 16) && r[1] == DigitChar(b % 16)
  {
    PadStart2(ToString16(b))
  }

  /** `Array.from(bytes).map(b => b.toString(16).padStart(2, '0')).join('')`. */
  function HexEncode(bytes: seq<byte>): (r: string)
    ensures |r| == 2 * |bytes|
    ensures forall i :: 0 <= i < |r| ==> IsLowerHex(r[i])
  {
    if bytes == [] then "" else ByteToHex(bytes[0]) + HexEncode(bytes[1..])
  }

  /** The pieces `s.match(/.{1,2}/g)` finds: `.` matches anything but a line
      terminator, so each run of other characters is cut into pieces of two
      from its left end, a run of odd length ending in a piece of one. */
  function Chunks(s: string): (r: seq<string>)
    ensures forall i :: 0 <= i < |r| ==> 1 <= |r[i]| <= 2
    decreases |s|
  {
    if s == [] then []
    else if IsLineTerminator(s[0]) then Chunks(s[1..])
    else if |s| >= 2 && !IsLineTerminator(s[1]) then [s[..2]] + Chunks(s[2..])
    else [s[..1]] + Chunks(s[1..])
  }

  /** The value of a hexadecimal digit of either case. */
  function HexDigitValue(c: char): Option<int> {
    if '0' <= c <= '9' then Some(c as int - '0' as int)
    else if 'a' <= c <= 'f' then Some(c as int - 'a' as int + 10)
    else if 'A' <= c <= 'F' then Some(c as int - 'A' as int + 10)
    else None
  }

  /** The longest prefix made of hexadecimal digits. */
  function HexPrefix(s: string): (r: string)
    ensures r <= s
    ensures forall i :: 0 <= i < |r| ==> HexDigitValue(r[i]).Some?
    ensures |r| == |s| || HexDigitValue(s[|r|]).None?
  {
    if s != [] && HexDigitValue(s[0]).Some? then [s[0]] + HexPrefix(s[1..]) else []
  }

  /** The number a string of hexadecimal digits denotes, most significant first. */
  function HexNumber(ds: string): nat
    requires forall i :: 0 <= i < |ds| ==> HexDigitValue(ds[i]).Some?
  {
    if ds == [] then 0
    else 16 * HexNumber(ds[..|ds| - 1]) + HexDigitValue(ds[|ds| - 1]).value
  }

  /** `parseInt(s, 16)`; None stands for NaN. Leading whitespace, one sign,
      and a "0x"/"0X" prefix are skipped, then the longest run of digits is read. */
  function ParseInt16(s: string): Option<int> {
    var t := TrimStart(s);
    var negative := t != [] && t[0] == '-';
    var u := if t != [] && (t[0] == '-' || t[0] == '+') then t[1..] else t;
    var v := if |u| >= 2 && u[0] == '0' && (u[1] == 'x' || u[1] == 'X') then u[2..] else u;
    var ds := HexPrefix(v);
    var n: int := HexNumber(ds);
    if ds == [] then None
    else if negative then Some(-n)
    else Some(n)
  }

  /** The conversion `new Uint8Array([...])` applies to each number: NaN is 0,
      everything else is taken modulo 256. */
  function ToUint8(n: Option<int>): byte {
    if n.None? then 0 else n.value % 256
  }

  function DecodePieces(pieces: seq<string>): (r: seq<byte>)
    ensures |r| == |pieces|
  {
    if pieces == [] then [] else [ToUint8(ParseInt16(pieces[0]))] + DecodePieces(pieces[1..])
  }

  /** `new Uint8Array(hex.match(/.{1,2}/g)!.map(byte => parseInt(byte, 16)))`.
      None: the match found nothing, so `.map` is called on null and throws. */
  function HexDecode(hex: string): Option<seq<byte>> {
    var pieces := Chunks(hex);
    if pieces == [] then None else Some(DecodePieces(pieces))
  }

  /** `hashPassword` with the random salt as a parameter. */
  function HashPassword(password: string, salt: Salt, kdf: Kdf): (r: string)
    ensures |r| == 32 + 1 + 64 && r[32] == ':'
    ensures forall i :: 0 <= i < |r| && i != 32 ==> IsLowerHex(r[i])
    ensures r[..32] == HexEncode(salt) && r[33..] == HexEncode(kdf(password, salt))
  {
    HexEncode(salt) + ":" + HexEncode(kdf(password, salt))
  }

  /** What `verifyPassword` settles to: a verdict, or a rejected promise. */
  datatype Verdict = Verdict(ok: bool) | Rejected

  /** `verifyPassword`: the first two ':'-separated fields are the salt and the
      hash; the hash recomputed from the decoded salt is compared with the
      second field as strings. */
  function VerifyPassword(password: string, stored: string, kdf: Kdf): Verdict {
    var fields := Split(stored, ':');
    if fields[0] == "" || |fields| < 2 || fields[1] == "" then Verdict(false)
    else
      match HexDecode(fields[0])
      case None => Rejected
      case Some(salt) => Verdict(HexEncode(kdf(password, salt)) == fields[1])
  }

  /** Two lower-case hex digits parse back to the byte they encode. */
  lemma ParseByteHex(b: byte)
    ensures ParseInt16(ByteToHex(b)) == Some(b)
  {
    var h := ByteToHex(b);
    assert HexDigitValue(h[0]) == Some(b / 16);
    assert HexDigitValue(h[1]) == Some(b % 16);
    assert !IsJsSpace(h[0]);
    assert TrimStart(h) == h;
    assert HexPrefix(h[1..]) == h[1..] by {
      assert h[1..][1..] == [];
    }
    assert HexPrefix(h) == h;
    assert h[..1] == [h[0]] && h[..1][..0] == [];
    assert HexNumber(h[..1]) == b / 16;
  }

  /** Converting the parse of a byte's encoding gives the byte. */
  lemma DecodeByteHex(b: byte)
    ensures ToUint8(ParseInt16(ByteToHex(b))) == b
  {
    ParseByteHex(b);
    ByteInRange(b);
  }

  /** A byte is its own value modulo 256. */
  lemma ByteInRange(b: byte)
    ensures ToUint8(Some(b)) == b
  {
  }

  /** The two-digit encodings of each byte, in order. */
  function Pieces(bytes: seq<byte>): (r: seq<string>)
    ensures |r| == |bytes|
  {
    if bytes == [] then [] else [ByteToHex(bytes[0])] + Pieces(bytes[1..])
  }

  /** The matcher cuts an encoding back into the two-digit pieces of its bytes. */
  lemma {:induction false} ChunksOfEncoding(bytes: seq<byte>)
    ensures Chunks(HexEncode(bytes)) == Pieces(bytes)
  {
    if bytes != [] {
      var h := HexEncode(bytes);
      var first := ByteToHex(bytes[0]);
      var rest := HexEncode(bytes[1..]);
      assert h == first + rest;
      assert !IsLineTerminator(h[0]) && !IsLineTerminator(h[1]);
      assert h[..2] == first && h[2..] == rest;
      ChunksOfEncoding(bytes[1..]);
    }
  }

  /** Parsing the two-digit pieces gives the bytes back. */
  lemma {:induction false} DecodePiecesOfBytes(bytes: seq<byte>)
    ensures DecodePieces(Pieces(bytes)) == bytes
  {
    if bytes != [] {
      var ps := Pieces(bytes);
      assert ps[0] == ByteToHex(bytes[0]) && ps[1..] == Pieces(bytes[1..]);
      DecodeByteHex(bytes[0]);
      DecodePiecesOfBytes(bytes[1..]);
    }
  }

  /** Decoding the hex of a non-empty byte string returns the same bytes. */
  lemma HexRoundTrip(bytes: seq<byte>)
    requires bytes != []
    ensures HexDecode(HexEncode(bytes)) == Some(bytes)
  {
    ChunksOfEncoding(bytes);
    DecodePiecesOfBytes(bytes);
  }

  /** A record `hashPassword` produced verifies with the same password. */
  lemma HashThenVerify(password: string, salt: Salt, kdf: Kdf)
    ensures VerifyPassword(password, HashPassword(password, salt, kdf), kdf) == Verdict(true)
  {
    var saltHex := HexEncode(salt);
    var hashHex := HexEncode(kdf(password, salt));
    assert ':' !in saltHex;
    assert ':' !in hashHex;
    SplitCons(saltHex, ':', hashHex);
    assert Split(HashPassword(password, salt, kdf), ':') == [saltHex, hashHex];
    HexRoundTrip(salt);
  }

  /** Without a ':' there is no hash field, and the verdict is false. */
  lemma NoSeparatorFails(password: string, stored: string, kdf: Kdf)
    requires ':' !in stored
    ensures VerifyPassword(password, stored, kdf) == Verdict(false)
  {
  }

  /** An empty salt field or an empty hash field gives false. */
  lemma EmptyFieldFails(password: string, saltHex: string, hashHex: string, kdf: Kdf)
    requires ':' !in saltHex
    requires saltHex == "" || hashHex == "" || hashHex[0] == ':'
    ensures VerifyPassword(password, saltHex + ":" + hashHex, kdf) == Verdict(false)
  {
    SplitCons(saltHex, ':', hashHex);
  }

  /** Only the first two fields matter: anything after a second ':' is ignored. */
  lemma {:induction false} ExtraFieldsIgnored(password: string, saltHex: string, hashHex: string, extra: string, kdf: Kdf)
    requires ':' !in saltHex && ':' !in hashHex
    ensures VerifyPassword(password, saltHex + ":" + hashHex + ":" + extra, kdf)
         == VerifyPassword(password, saltHex + ":" + hashHex, kdf)
  {
    LongFields(saltHex, hashHex, extra);
    ShortFields(saltHex, hashHex);
    SameFirstFields(password, saltHex + ":" + hashHex + ":" + extra, saltHex + ":" + hashHex, kdf);
  }

  lemma {:induction false} LongFields(saltHex: string, hashHex: string, extra: string)
    requires ':' !in saltHex && ':' !in hashHex
    ensures var f := Split(saltHex + ":" + hashHex + ":" + extra, ':');
      |f| >= 2 && f[0] == saltHex && f[1] == hashHex
  {
    assert saltHex + ":" + hashHex + ":" + extra == saltHex + [':'] + (hashHex + [':'] + extra);
    SplitCons(saltHex, ':', hashHex + [':'] + extra);
    SplitCons(hashHex, ':', extra);
  }

  lemma {:induction false} ShortFields(saltHex: string, hashHex: string)
    requires ':' !in saltHex && ':' !in hashHex
    ensures Split(saltHex + ":" + hashHex, ':') == [saltHex, hashHex]
  {
    SplitCons(saltHex, ':', hashHex);
  }

  /** Stored strings whose first two fields agree get the same verdict. */
  lemma {:induction false} SameFirstFields(password: string, long: string, short: string, kdf: Kdf)
    requires |Split(long, ':')| >= 2 && |Split(short, ':')| >= 2
    requires Split(long, ':')[0] == Split(short, ':')[0] && Split(long, ':')[1] == Split(short, ':')[1]
    ensures VerifyPassword(password, long, kdf) == VerifyPassword(password, short, kdf)
  {
  }
}
