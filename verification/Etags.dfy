/** Entity tags: the quoted hexadecimal digest of an object's bytes. */
module Etags {
  import opened Types
  import opened Decimal

  /** The digest algorithm is a parameter of the model; nothing about MD5 itself is needed. */
  type Digest = bytes -> bytes

  function HexDigit(n: int): char
    requires 0 <= n < 16
  {
    "0123456789abcdef"[n]
  }

  function HexEncode(b: bytes): (s: string)
    ensures |s| == 2 * |b|
  {
    if b == [] then "" else [HexDigit(b[0] / 16), HexDigit(b[0] % 16)] + HexEncode(b[1..])
  }

  function Quote(s: string): string {
    "\"" + s + "\""
  }

  /** The tag `stream_to_tmp` computes for a body. */
  function EtagOf(md5: Digest, data: bytes): string {
    Quote(HexEncode(md5(data)))
  }

  /** The tag of an assembled object: the digest of its parts' raw digests, and their number. */
  function CompositeEtag(md5: Digest, digests: bytes, count: nat): string {
    Quote(HexEncode(md5(digests)) + "-" + ToDecimal(count))
  }

  /** The digests of the pieces. */
  function Digests(md5: Digest, pieces: seq<bytes>): seq<bytes> {
    seq(|pieces|, i requires 0 <= i < |pieces| => md5(pieces[i]))
  }

  function HexValue(c: char): (r: Option<nat>)
    ensures r.Some? ==> r.value < 16
  {
    if '0' <= c <= '9' then Some(c as int - '0' as int)
    else if 'a' <= c <= 'f' then Some(c as int - 'a' as int + 10)
    else if 'A' <= c <= 'F' then Some(c as int - 'A' as int + 10)
    else None
  }

  /** `u8::from_str_radix(chunk, 16)` on a chunk of one or two characters; a leading plus sign is accepted. */
  function ParseHexByte(chunk: string): Option<byte>
    requires 1 <= |chunk| <= 2
  {
    if |chunk| == 1 then HexValue(chunk[0])
    else if chunk[0] == '+' then HexValue(chunk[1])
    else
      match (HexValue(chunk[0]), HexValue(chunk[1]))
      case (Some(h), Some(l)) => Some(16 * h + l)
      case _ => None
  }

  /** `chunks(2)`, each parsed; one bad chunk fails the whole. */
  function HexDecode(s: string): Option<bytes> {
    if s == "" then Some([])
    else if |s| == 1 then
      match ParseHexByte(s)
      case Some(b) => Some([b])
      case None => None
    else
      match (ParseHexByte(s[..2]), HexDecode(s[2..]))
      case (Some(b), Some(rest)) => Some([b] + rest)
      case _ => None
  }

  function TrimLeft(s: string): string {
    if s != "" && s[0] == '"' then TrimLeft(s[1..]) else s
  }

  function TrimRight(s: string): string {
    if s != "" && s[|s| - 1] == '"' then TrimRight(s[..|s| - 1]) else s
  }

  /** `trim_matches('"')`. */
  function TrimQuotes(s: string): string {
    TrimRight(TrimLeft(s))
  }

  lemma HexDigitValue(n: nat)
    requires n < 16
    ensures HexValue(HexDigit(n)) == Some(n) && HexDigit(n) != '"' && HexDigit(n) != '+'
  {
  }

  lemma HexByteRoundTrip(b: byte)
    ensures ParseHexByte([HexDigit(b / 16), HexDigit(b % 16)]) == Some(b)
  {
    HexDigitValue(b / 16);
    HexDigitValue(b % 16);
    assert 16 * (b / 16) + b % 16 == b;
  }

  /** Hex decoding undoes hex encoding. */
  lemma {:induction false} HexRoundTrip(b: bytes)
    ensures HexDecode(HexEncode(b)) == Some(b)
  {
    if b == [] {
    } else {
      var s := HexEncode(b);
      HexByteRoundTrip(b[0]);
      HexRoundTrip(b[1..]);
      assert s[..2] == [HexDigit(b[0] / 16), HexDigit(b[0] % 16)];
      assert s[2..] == HexEncode(b[1..]);
      assert [b[0]] + b[1..] == b;
    }
  }

  lemma {:induction false} HexHasNoQuotes(b: bytes)
    ensures forall i :: 0 <= i < 2 * |b| ==> HexEncode(b)[i] != '"'
  {
    if b != [] {
      HexDigitValue(b[0] / 16);
      HexDigitValue(b[0] % 16);
      HexHasNoQuotes(b[1..]);
    }
  }

  lemma TrimQuoted(hex: string)
    requires forall i :: 0 <= i < |hex| ==> hex[i] != '"'
    ensures TrimQuotes(Quote(hex)) == hex
  {
    var s, t := Quote(hex), hex + "\"";
    assert s[1..] == t;
    if hex == "" {
      assert t[1..] == "";
      assert TrimLeft(t) == "";
    } else {
      assert TrimLeft(s) == TrimLeft(t) == t;
      assert t[..|t| - 1] == hex;
      assert TrimRight(t) == TrimRight(hex) == hex;
    }
  }

  lemma {:induction false} HexIsLowerCase(b: bytes)
    ensures forall i :: 0 <= i < 2 * |b| ==> '0' <= HexEncode(b)[i] <= '9' || 'a' <= HexEncode(b)[i] <= 'f'
  {
    if b != [] {
      HexIsLowerCase(b[1..]);
    }
  }

  /** A tag is a quote, two lower-case hexadecimal digits for each byte of the digest, and a quote. */
  lemma TagText(md5: Digest, data: bytes)
    ensures var tag := EtagOf(md5, data);
            && |tag| == 2 * |md5(data)| + 2 && tag[0] == '"' && tag[|tag| - 1] == '"'
            && (forall i :: 1 <= i < |tag| - 1 ==> '0' <= tag[i] <= '9' || 'a' <= tag[i] <= 'f')
            && HexDecode(tag[1..|tag| - 1]) == Some(md5(data))
  {
    var hex := HexEncode(md5(data));
    HexIsLowerCase(md5(data));
    HexRoundTrip(md5(data));
    assert EtagOf(md5, data)[1..|hex| + 1] == hex;
  }

  /** The raw digest can be read back from a quoted tag. */
  lemma EtagRoundTrip(md5: Digest, data: bytes)
    ensures HexDecode(TrimQuotes(EtagOf(md5, data))) == Some(md5(data))
  {
    HexRoundTrip(md5(data));
    HexHasNoQuotes(md5(data));
    TrimQuoted(HexEncode(md5(data)));
  }
}
