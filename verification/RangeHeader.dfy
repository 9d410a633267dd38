/** The client's range printer, the server's range parser, and the window that is served. */
module RangeHeader {
  import opened Types
  import opened Decimal

  /** A single byte range as the client asks for it. */
  datatype Range = Span(start: nat, end: Option<nat>) | Suffix(length: nat)

  function EncodeRange(range: Range): string {
    match range
    case Suffix(n) => "bytes=-" + ToDecimal(n)
    case Span(start, end) =>
      "bytes=" + ToDecimal(start) + "-" + (match end case Some(e) => ToDecimal(e) case None => "")
  }

  /** 416 is the only way a range is refused. */
  datatype RangeError = NotSatisfiable

  /** `split_once('-')`. */
  function SplitDash(s: string): (r: Option<(string, string)>) {
    if s == "" then None
    else if s[0] == '-' then Some(("", s[1..]))
    else
      match SplitDash(s[1..])
      case None => None
      case Some((a, b)) => Some(([s[0]] + a, b))
  }

  /** Blank characters that a header value may hold. */
  predicate Blank(c: char) {
    c == ' ' || c == '\t'
  }

  function TrimLeft(s: string): string {
    if s != "" && Blank(s[0]) then TrimLeft(s[1..]) else s
  }

  function TrimRight(s: string): string {
    if s != "" && Blank(s[|s| - 1]) then TrimRight(s[..|s| - 1]) else s
  }

  function Trim(s: string): string {
    TrimRight(TrimLeft(s))
  }

  function Min(a: nat, b: nat): nat {
    if a < b then a else b
  }

  /** The header's text against an object size; `None` when there is no header. */
  function ParseRange(header: Option<string>, size: nat): Result<Option<(nat, nat)>, RangeError> {
    match header
    case None => Ok(None)
    case Some(raw) =>
      if !("bytes=" <= raw) then Err(NotSatisfiable)
      else
        var spec := raw[6..];
        if ',' in spec then Err(NotSatisfiable)
        else
          match SplitDash(spec)
          case None => Err(NotSatisfiable)
          case Some((a, b)) => if size == 0 then Err(NotSatisfiable) else ParseBounds(Trim(a), Trim(b), size)
  }

  function ParseBounds(first: string, last: string, size: nat): Result<Option<(nat, nat)>, RangeError>
    requires size > 0
  {
    if first == "" && last == "" then Err(NotSatisfiable)
    else if first == "" then
      match ParseU64(last)
      case None => Err(NotSatisfiable)
      case Some(n) =>
        if n == 0 then Err(NotSatisfiable)
        else Checked(if n < size then size - n else 0, size - 1, size)
    else if last == "" then
      match ParseU64(first)
      case None => Err(NotSatisfiable)
      case Some(start) => Checked(start, size - 1, size)
    else
      match (ParseU64(first), ParseU64(last))
      case (Some(start), Some(end)) => Checked(start, Min(end, size - 1), size)
      case _ => Err(NotSatisfiable)
  }

  function Checked(start: nat, end: nat, size: nat): Result<Option<(nat, nat)>, RangeError> {
    if start > end || start >= size then Err(NotSatisfiable) else Ok(Some((start, end)))
  }

  const U64_MAX: nat := U64_LIMIT - 1

  /** `(start, length)` of the bytes to send, with the source's saturating arithmetic. */
  function GetWindow(size: nat, range: Option<(nat, nat)>): (nat, nat) {
    match range
    case None => (0, size)
    case Some((s, e)) => (s, Min(if s <= e then e - s + 1 else 1, U64_MAX))
  }

  // ---- Section 14.1.2 of RFC 9110 ----

  /** Byte `i` of an object of `size` bytes is in the requested range. */
  predicate Selects(range: Range, size: nat, i: nat) {
    i < size &&
    match range
    case Suffix(n) => size - n <= i
    case Span(start, end) => start <= i && (end.Some? ==> i <= end.value)
  }

  predicate FitsU64(range: Range) {
    match range
    case Suffix(n) => n < U64_LIMIT
    case Span(start, end) => start < U64_LIMIT && (end.Some? ==> end.value < U64_LIMIT)
  }

  lemma {:induction false} SplitAtDash(a: string, b: string)
    requires '-' !in a
    ensures SplitDash(a + "-" + b) == Some((a, b))
  {
    var s := a + "-" + b;
    if a == "" {
      assert s[1..] == b;
    } else {
      assert s[0] == a[0] && s[1..] == a[1..] + "-" + b;
      SplitAtDash(a[1..], b);
      assert [a[0]] + a[1..] == a;
    }
  }

  function FirstText(range: Range): string {
    if range.Span? then ToDecimal(range.start) else ""
  }

  function LastText(range: Range): string {
    match range
    case Suffix(n) => ToDecimal(n)
    case Span(_, end) => if end.Some? then ToDecimal(end.value) else ""
  }

  lemma BoundTexts(range: Range)
    ensures AllDigits(FirstText(range)) && AllDigits(LastText(range))
    ensures EncodeRange(range) == "bytes=" + (FirstText(range) + "-" + LastText(range))
  {
    match range {
      case Suffix(n) => DecimalDigits(n);
      case Span(start, end) =>
        DecimalDigits(start);
        if end.Some? {
          DecimalDigits(end.value);
        }
    }
  }

  lemma DigitsUntouched(a: string, b: string)
    requires AllDigits(a) && AllDigits(b)
    ensures Trim(a) == a && Trim(b) == b
    ensures ',' !in a + "-" + b
  {
  }

  /** What the parser sees of a printed range. */
  lemma ParsePrinted(range: Range, size: nat)
    ensures ParseRange(Some(EncodeRange(range)), size) ==
            if size == 0 then Err(NotSatisfiable) else ParseBounds(FirstText(range), LastText(range), size)
  {
    BoundTexts(range);
    var spec := FirstText(range) + "-" + LastText(range);
    assert EncodeRange(range)[6..] == spec;
    SplitAtDash(FirstText(range), LastText(range));
    DigitsUntouched(FirstText(range), LastText(range));
  }

  /**
   * The printed range comes back as exactly the selected bytes, or is refused when there are none;
   * the only exception is a bound beyond 64 bits, which is refused although it may select bytes.
   */
  lemma ParseEncodeAgree(range: Range, size: nat)
    ensures var r := ParseRange(Some(EncodeRange(range)), size);
            && (r.Ok? ==> r.value.Some? && r.value.value.0 <= r.value.value.1 < size
                          && forall i :: 0 <= i ==> (Selects(range, size, i) <==> r.value.value.0 <= i <= r.value.value.1))
            && (r.Ok? <==> FitsU64(range) && exists i :: 0 <= i && Selects(range, size, i))
  {
    ParsePrinted(range, size);
    match range {
      case Suffix(n) =>
        ParseU64OfDecimal(n);
        assert size > 0 && n > 0 ==> Selects(range, size, size - 1);
      case Span(start, end) =>
        ParseU64OfDecimal(start);
        if end.Some? {
          ParseU64OfDecimal(end.value);
        }
        assert start < size && (end.Some? ==> start <= end.value) ==> Selects(range, size, start);
    }
  }

  // ---- Any header text ----

  predicate AllBlank(s: string) {
    forall i :: 0 <= i < |s| ==> Blank(s[i])
  }

  /** A bound as it may be written: blanks around it, a plus sign, leading zeros; or left out. */
  datatype Bound = Bound(left: string, number: Option<(bool, nat, nat)>, right: string)

  function Core(b: Bound): string {
    match b.number
    case None => ""
    case Some((plus, zeros, n)) => Spelt(plus, zeros, n)
  }

  function Written(b: Bound): string {
    b.left + Core(b) + b.right
  }

  function NumberOf(b: Bound): Option<nat> {
    match b.number
    case None => None
    case Some((_, _, n)) => Some(n)
  }

  /** The range that two bounds ask for; none when both are left out. */
  function RangeOf(first: Bound, last: Bound): Option<Range> {
    match (NumberOf(first), NumberOf(last))
    case (None, None) => None
    case (None, Some(n)) => Some(Suffix(n))
    case (Some(start), end) => Some(Span(start, end))
  }

  predicate BlankAround(b: Bound) {
    AllBlank(b.left) && AllBlank(b.right)
  }

  lemma {:induction false} TrimLeftBlanks(left: string, s: string)
    requires AllBlank(left)
    ensures TrimLeft(left + s) == TrimLeft(s)
  {
    if left == "" {
      assert left + s == s;
    } else {
      assert (left + s)[1..] == left[1..] + s;
      TrimLeftBlanks(left[1..], s);
    }
  }

  lemma {:induction false} TrimRightBlanks(s: string, right: string)
    requires AllBlank(right)
    ensures TrimRight(s + right) == TrimRight(s)
  {
    if right == "" {
      assert s + right == s;
    } else {
      assert (s + right)[..|s + right| - 1] == s + right[..|right| - 1];
      TrimRightBlanks(s, right[..|right| - 1]);
    }
  }

  lemma TrimBound(b: Bound)
    requires BlankAround(b)
    ensures Trim(Written(b)) == Core(b)
  {
    CoreIsPlain(b);
    assert Written(b) == b.left + (Core(b) + b.right);
    TrimLeftBlanks(b.left, Core(b) + b.right);
    if Core(b) == "" {
      assert "" + b.right == b.right;
      assert b.right + "" == b.right;
      TrimLeftBlanks(b.right, "");
    } else {
      assert TrimLeft(Core(b) + b.right) == Core(b) + b.right;
      TrimRightBlanks(Core(b), b.right);
    }
  }

  /** A written bound has no blank inside, no comma and no dash. */
  lemma CoreIsPlain(b: Bound)
    ensures forall i :: 0 <= i < |Core(b)| ==> Core(b)[i] == '+' || '0' <= Core(b)[i] <= '9'
  {
    if b.number.Some? {
      DecimalDigits(b.number.value.2);
    }
  }

  lemma {:induction false} DashSplits(s: string)
    ensures SplitDash(s).Some? ==>
              s == SplitDash(s).value.0 + "-" + SplitDash(s).value.1 && '-' !in SplitDash(s).value.0
  {
    if s != "" && s[0] != '-' {
      DashSplits(s[1..]);
      if SplitDash(s[1..]).Some? {
        var (a, b) := SplitDash(s[1..]).value;
        assert [s[0]] + (a + "-" + b) == ([s[0]] + a) + "-" + b;
      }
    } else if s != "" {
      assert s == "" + "-" + s[1..];
    }
  }

  /** What is left to be parsed of a header with the right unit and a dash. */
  lemma ParseSplit(spec: string, first: string, last: string, size: nat)
    requires ',' !in spec && SplitDash(spec) == Some((first, last))
    ensures ParseRange(Some("bytes=" + spec), size)
            == if size == 0 then Err(NotSatisfiable) else ParseBounds(Trim(first), Trim(last), size)
  {
    assert ("bytes=" + spec)[6..] == spec;
  }

  lemma NoComma(b: Bound)
    requires BlankAround(b)
    ensures ',' !in Written(b) && '-' !in Written(b)
  {
    CoreIsPlain(b);
    assert ',' !in b.left && ',' !in b.right && '-' !in b.left && '-' !in b.right;
    assert ',' !in Core(b) && '-' !in Core(b);
  }

  lemma ParseWritten(first: Bound, last: Bound, size: nat)
    requires BlankAround(first) && BlankAround(last)
    ensures ParseRange(Some("bytes=" + (Written(first) + "-" + Written(last))), size)
            == if size == 0 then Err(NotSatisfiable) else ParseBounds(Core(first), Core(last), size)
  {
    NoComma(first);
    NoComma(last);
    SplitAtDash(Written(first), Written(last));
    TrimBound(first);
    TrimBound(last);
    ParseSplit(Written(first) + "-" + Written(last), Written(first), Written(last), size);
  }

  /** However its bounds are written, a header is answered like the printed range that it asks for. */
  lemma WrittenIsAnswered(first: Bound, last: Bound, size: nat)
    requires BlankAround(first) && BlankAround(last)
    ensures var r := ParseRange(Some("bytes=" + (Written(first) + "-" + Written(last))), size);
            if RangeOf(first, last).Some? then
              r == ParseRange(Some(EncodeRange(RangeOf(first, last).value)), size)
            else r.Err?
  {
    ParseWritten(first, last, size);
    if RangeOf(first, last).Some? {
      ParsePrinted(RangeOf(first, last).value, size);
      if size > 0 {
        BoundsAlike(first, last, size);
      }
    }
  }

  /** Two texts that are missing alike or read as the same number. */
  predicate Alike(a: string, b: string) {
    (a == "" <==> b == "") && (a != "" ==> ParseU64(a) == ParseU64(b))
  }

  lemma AlikeParsed(a: string, b: string, c: string, d: string, size: nat)
    requires size > 0 && Alike(a, c) && Alike(b, d)
    ensures ParseBounds(a, b, size) == ParseBounds(c, d, size)
  {
  }

  lemma CoreIsAlike(b: Bound)
    ensures match NumberOf(b)
            case None => Core(b) == ""
            case Some(n) => Alike(Core(b), ToDecimal(n))
  {
    if b.number.Some? {
      var (plus, zeros, n) := b.number.value;
      SpeltIsParsed(plus, zeros, n);
      ParseU64OfDecimal(n);
    }
  }

  /** Only the numbers matter. */
  lemma BoundsAlike(first: Bound, last: Bound, size: nat)
    requires size > 0 && RangeOf(first, last).Some?
    ensures var range := RangeOf(first, last).value;
            ParseBounds(Core(first), Core(last), size) == ParseBounds(FirstText(range), LastText(range), size)
  {
    var range := RangeOf(first, last).value;
    CoreIsAlike(first);
    CoreIsAlike(last);
    AlikeParsed(Core(first), Core(last), FirstText(range), LastText(range), size);
  }

  lemma {:induction false} Trimmed(s: string) returns (left: string, right: string)
    ensures AllBlank(left) && AllBlank(right) && s == left + Trim(s) + right
  {
    left := LeftBlanks(s);
    right := RightBlanks(TrimLeft(s));
  }

  lemma {:induction false} LeftBlanks(s: string) returns (left: string)
    ensures AllBlank(left) && s == left + TrimLeft(s)
  {
    left := "";
    if s != "" && Blank(s[0]) {
      var rest := LeftBlanks(s[1..]);
      left := [s[0]] + rest;
    }
  }

  lemma {:induction false} RightBlanks(s: string) returns (right: string)
    ensures AllBlank(right) && s == TrimRight(s) + right
  {
    right := "";
    if s != "" && Blank(s[|s| - 1]) {
      var rest := RightBlanks(s[..|s| - 1]);
      right := rest + [s[|s| - 1]];
    }
  }

  lemma AsBound(s: string, missing: bool) returns (b: Bound)
    requires if missing then Trim(s) == "" else ParseU64(Trim(s)).Some?
    ensures BlankAround(b) && Written(b) == s && b.number.None? == missing
  {
    var left, right := Trimmed(s);
    if missing {
      b := Bound(left, None, right);
    } else {
      var n := ParseU64(Trim(s)).value;
      var plus, zeros := ParsedIsSpelt(Trim(s), n);
      b := Bound(left, Some((plus, zeros, n)), right);
    }
  }

  lemma AcceptedSplits(raw: string, size: nat)
    requires ParseRange(Some(raw), size).Ok?
    ensures |raw| >= 6 && raw == "bytes=" + raw[6..] && SplitDash(raw[6..]).Some? && size > 0
    ensures var (a, b) := SplitDash(raw[6..]).value; ParseBounds(Trim(a), Trim(b), size).Ok?
  {
  }

  lemma BoundsAreNumbers(a: string, b: string, size: nat)
    requires size > 0 && ParseBounds(a, b, size).Ok?
    ensures (a != "" ==> ParseU64(a).Some?) && (b != "" ==> ParseU64(b).Some?) && (a != "" || b != "")
  {
  }

  /** And no other header text is accepted. */
  lemma AcceptedIsWritten(raw: string, size: nat) returns (first: Bound, last: Bound)
    requires ParseRange(Some(raw), size).Ok?
    ensures BlankAround(first) && BlankAround(last) && RangeOf(first, last).Some?
    ensures raw == "bytes=" + (Written(first) + "-" + Written(last))
  {
    AcceptedSplits(raw, size);
    DashSplits(raw[6..]);
    var (a, b) := SplitDash(raw[6..]).value;
    BoundsAreNumbers(Trim(a), Trim(b), size);
    first := AsBound(a, Trim(a) == "");
    last := AsBound(b, Trim(b) == "");
  }

  /** The window of any accepted header lies inside the object and no sum overflows 64 bits. */
  lemma WindowInside(header: Option<string>, size: nat)
    requires size < U64_LIMIT && ParseRange(header, size).Ok?
    ensures var (start, length) := GetWindow(size, ParseRange(header, size).value);
            start + length <= size && (header.Some? ==> length >= 1)
  {
  }

  function Served(data: bytes, header: Option<string>): Option<bytes> {
    match ParseRange(header, |data|)
    case Err(_) => None
    case Ok(range) =>
      var (start, length) := GetWindow(|data|, range);
      if start + length <= |data| then Some(data[start..start + length]) else None
  }

  /** Without a header all bytes are served; with one, exactly those from the first to the last position. */
  lemma ServedExactly(data: bytes, header: Option<string>)
    requires |data| < U64_LIMIT
    ensures header.None? ==> Served(data, header) == Some(data)
    ensures header.Some? ==>
              match ParseRange(header, |data|)
              case Ok(Some((first, last))) =>
                first <= last < |data| && Served(data, header) == Some(data[first..last + 1])
              case Ok(None) => false
              case Err(_) => Served(data, header) == None
  {
    assert data[0..|data|] == data;
  }

  /** One tile of the object is served as exactly its bytes. */
  lemma TileServed(data: bytes, a: nat, b: nat)
    requires |data| < U64_LIMIT && a < b <= |data|
    ensures Served(data, Some(EncodeRange(Span(a, Some(b - 1))))) == Some(data[a..b])
  {
    ParseEncodeAgree(Span(a, Some(b - 1)), |data|);
    var range := Span(a, Some(b - 1));
    assert Selects(range, |data|, a) && Selects(range, |data|, b - 1);
    var (s, e) := ParseRange(Some(EncodeRange(range)), |data|).value.value;
    assert Selects(range, |data|, s) && Selects(range, |data|, e);
  }

  /** The answer to a request for one tile. */
  function Tile(data: bytes, a: nat, b: nat): Option<bytes> {
    if b == 0 then None else Served(data, Some(EncodeRange(Span(a, Some(b - 1)))))
  }

  function Glue(before: Option<bytes>, tile: Option<bytes>): Option<bytes> {
    match (before, tile)
    case (Some(a), Some(b)) => Some(a + b)
    case _ => None
  }

  /** What a client gets by asking for one tile after the other and gluing the answers together. */
  function Download(data: bytes, cuts: seq<nat>): Option<bytes> {
    if |cuts| <= 1 then Some([])
    else
      var n := |cuts| - 1;
      Glue(Download(data, cuts[..n]), Tile(data, cuts[n - 1], cuts[n]))
  }

  ghost predicate Tiling(cuts: seq<nat>, size: nat) {
    cuts != [] && cuts[0] == 0 && cuts[|cuts| - 1] <= size && forall i :: 0 < i < |cuts| ==> cuts[i - 1] < cuts[i]
  }

  lemma GlueSlices(data: bytes, a: nat, b: nat, before: Option<bytes>, tile: Option<bytes>)
    requires a <= b <= |data| && before == Some(data[..a]) && tile == Some(data[a..b])
    ensures Glue(before, tile) == Some(data[..b])
  {
    assert data[..a] + data[a..b] == data[..b];
  }

  lemma TileIsSlice(data: bytes, a: nat, b: nat)
    requires |data| < U64_LIMIT && a < b <= |data|
    ensures Tile(data, a, b) == Some(data[a..b])
  {
    TileServed(data, a, b);
  }

  /** Adjacent ranges that tile a prefix of the object rebuild it. */
  lemma {:induction false} DownloadRebuilds(data: bytes, cuts: seq<nat>)
    requires |data| < U64_LIMIT && Tiling(cuts, |data|)
    ensures Download(data, cuts) == Some(data[..cuts[|cuts| - 1]])
  {
    if |cuts| > 1 {
      var n := |cuts| - 1;
      DownloadRebuilds(data, cuts[..n]);
      TileIsSlice(data, cuts[n - 1], cuts[n]);
      GlueSlices(data, cuts[n - 1], cuts[n], Download(data, cuts[..n]), Tile(data, cuts[n - 1], cuts[n]));
    } else {
      assert data[..0] == [];
    }
  }
}
