/** Classification and bounded previews of stored files (internal/assets/files.go). */
module Utf8 {
  import opened Prelude
  import opened Domain

  predicate Continuation(b: byte) {
    0x80 <= b <= 0xBF
  }

  /** Length of the encoded character that starts `s`, 0 when none does
      (section 4 of RFC 3629: no overlong forms, no surrogates, at most U+10FFFF). */
  function CharLength(s: seq<byte>): (n: nat)
    ensures n <= 4 && n <= |s|
  {
    if |s| >= 1 && s[0] < 0x80 then 1
    else if |s| >= 2 && 0xC2 <= s[0] <= 0xDF && Continuation(s[1]) then 2
    else if |s| >= 3 && Continuation(s[1]) && Continuation(s[2])
      && ((s[0] == 0xE0 && s[1] >= 0xA0) || 0xE1 <= s[0] <= 0xEC
          || (s[0] == 0xED && s[1] <= 0x9F) || 0xEE <= s[0] <= 0xEF) then 3
    else if |s| >= 4 && Continuation(s[1]) && Continuation(s[2]) && Continuation(s[3])
      && ((s[0] == 0xF0 && s[1] >= 0x90) || 0xF1 <= s[0] <= 0xF3 || (s[0] == 0xF4 && s[1] <= 0x8F)) then 4
    else 0
  }

  predicate Valid(s: seq<byte>) {
    s == [] || (CharLength(s) > 0 && Valid(s[CharLength(s)..]))
  }

  /** A character is recognised from its own bytes alone. */
  lemma CharLengthOfPrefix(s: seq<byte>, n: nat)
    requires CharLength(s) > 0 && CharLength(s) <= n <= |s|
    ensures CharLength(s[..n]) == CharLength(s)
  {
  }

  /** Cutting valid text anywhere leaves a valid prefix at most three bytes short of the cut. */
  lemma {:induction false} CutIsNearBoundary(s: seq<byte>, n: nat) returns (dropped: nat)
    requires Valid(s) && n <= |s|
    ensures dropped <= 3 && dropped <= n && Valid(s[..n - dropped])
  {
    var length := CharLength(s);
    if n < length || n == 0 {
      dropped := n;
    } else {
      dropped := CutIsNearBoundary(s[length..], n - length);
      var kept := s[..n - dropped];
      if n - dropped >= length {
        CharLengthOfPrefix(s, n - dropped);
        assert kept[length..] == s[length..][..n - dropped - length];
      }
    }
  }
}

/** Validity of UTF-8 by what is encoded. */
module Utf8Laws {
  import opened Prelude
  import opened Domain
  import opened Utf8

  /** A Unicode scalar value. */
  predicate Scalar(c: int) {
    0 <= c < 0xD800 || 0xE000 <= c < 0x110000
  }

  /** Its encoding (section 3 of RFC 3629). */
  function Encode(c: int): (r: seq<byte>)
    requires Scalar(c)
    ensures 1 <= |r| <= 4
  {
    if c < 0x80 then [c as byte]
    else if c < 0x800 then [(0xC0 + c / 0x40) as byte, (0x80 + c % 0x40) as byte]
    else if c < 0x10000 then
      [(0xE0 + c / 0x40 / 0x40) as byte, (0x80 + c / 0x40 % 0x40) as byte, (0x80 + c % 0x40) as byte]
    else [(0xF0 + c / 0x40 / 0x40 / 0x40) as byte, (0x80 + c / 0x40 / 0x40 % 0x40) as byte,
          (0x80 + c / 0x40 % 0x40) as byte, (0x80 + c % 0x40) as byte]
  }

  function EncodeAll(cs: seq<int>): seq<byte>
    requires forall i | 0 <= i < |cs| :: Scalar(cs[i])
  {
    if cs == [] then [] else Encode(cs[0]) + EncodeAll(cs[1..])
  }

  lemma EncodedCharLength(c: int, rest: seq<byte>)
    requires Scalar(c)
    ensures CharLength(Encode(c) + rest) == |Encode(c)|
  {
  }

  /** Six bits at a time. */
  function Decode(s: seq<byte>): (c: int)
    requires CharLength(s) > 0
  {
    match CharLength(s)
    case 1 => s[0] as int
    case 2 => (s[0] as int - 0xC0) * 0x40 + (s[1] as int - 0x80)
    case 3 => ((s[0] as int - 0xE0) * 0x40 + (s[1] as int - 0x80)) * 0x40 + (s[2] as int - 0x80)
    case _ => (((s[0] as int - 0xF0) * 0x40 + (s[1] as int - 0x80)) * 0x40 + (s[2] as int - 0x80)) * 0x40
              + (s[3] as int - 0x80)
  }

  lemma Digit(q: int, r: int)
    requires 0 <= r < 0x40
    ensures (q * 0x40 + r) / 0x40 == q && (q * 0x40 + r) % 0x40 == r
  {
  }

  lemma ShortIsEncoded(s: seq<byte>)
    requires CharLength(s) in {1, 2}
    ensures Scalar(Decode(s)) && Encode(Decode(s)) == s[..CharLength(s)]
  {
    if CharLength(s) == 2 {
      Digit(s[0] as int - 0xC0, s[1] as int - 0x80);
    }
  }

  lemma ThreeAreEncoded(s: seq<byte>)
    requires CharLength(s) == 3
    ensures Scalar(Decode(s)) && Encode(Decode(s)) == s[..3]
  {
    var a, b, c := s[0] as int - 0xE0, s[1] as int - 0x80, s[2] as int - 0x80;
    Digit(a, b);
    Digit(a * 0x40 + b, c);
  }

  lemma FourAreEncoded(s: seq<byte>)
    requires CharLength(s) == 4
    ensures Scalar(Decode(s)) && Encode(Decode(s)) == s[..4]
  {
    var a, b, c, d := s[0] as int - 0xF0, s[1] as int - 0x80, s[2] as int - 0x80, s[3] as int - 0x80;
    Digit(a, b);
    Digit(a * 0x40 + b, c);
    Digit((a * 0x40 + b) * 0x40 + c, d);
  }

  lemma DecodedIsEncoded(s: seq<byte>)
    requires CharLength(s) > 0
    ensures Scalar(Decode(s)) && Encode(Decode(s)) == s[..CharLength(s)]
  {
    if CharLength(s) == 4 {
      FourAreEncoded(s);
    } else if CharLength(s) == 3 {
      ThreeAreEncoded(s);
    } else {
      ShortIsEncoded(s);
    }
    hide CharLength, Decode, Encode, Scalar;
  }

  lemma {:induction false} ValidIsEncoded(s: seq<byte>) returns (cs: seq<int>)
    requires Valid(s)
    ensures (forall i | 0 <= i < |cs| :: Scalar(cs[i])) && EncodeAll(cs) == s
  {
    if s == [] {
      cs := [];
    } else {
      DecodedIsEncoded(s);
      var rest := ValidIsEncoded(s[CharLength(s)..]);
      cs := [Decode(s)] + rest;
      assert cs[1..] == rest;
    }
  }

  /** Exactly the encodings of scalar values are valid. */
  lemma ValidWhen(s: seq<byte>)
    ensures Valid(s) <==> exists cs :: (forall i | 0 <= i < |cs| :: Scalar(cs[i])) && EncodeAll(cs) == s
  {
    if Valid(s) {
      var cs := ValidIsEncoded(s);
    }
    forall cs: seq<int> | (forall i | 0 <= i < |cs| :: Scalar(cs[i])) && EncodeAll(cs) == s ensures Valid(s) {
      EncodedIsValid(cs);
    }
    hide Valid, EncodeAll;
  }

  lemma {:induction false} EncodedIsValid(cs: seq<int>)
    requires forall i | 0 <= i < |cs| :: Scalar(cs[i])
    ensures Valid(EncodeAll(cs))
  {
    if cs != [] {
      var rest := EncodeAll(cs[1..]);
      EncodedIsValid(cs[1..]);
      EncodedCharLength(cs[0], rest);
      assert (Encode(cs[0]) + rest)[|Encode(cs[0])|..] == rest;
    }
  }
}

module Preview {
  import opened Prelude
  import opened Domain
  import opened Utf8
  import opened CsvCells
  import opened CsvQuery

  /** The preview text: the whole file when it fits, else the longest valid prefix
      within the bound. */
  method TruncateText(data: seq<byte>, maxBytes: nat) returns (text: seq<byte>, truncated: bool)
    ensures truncated <==> |data| > maxBytes
    ensures !truncated ==> text == data
    ensures truncated ==> Valid(text) && text <= data && |text| <= maxBytes
    ensures truncated ==> forall k | |text| < k <= maxBytes :: !Valid(data[..k])
    ensures truncated && Valid(data) ==> maxBytes - |text| <= 3
  {
    truncated := |data| > maxBytes;
    text := data;
    if truncated {
      text := data[..maxBytes];
      while !Valid(text) && |text| > 0
        invariant text <= data && |text| <= maxBytes
        invariant forall k | |text| < k <= maxBytes :: !Valid(data[..k])
      {
        assert text == data[..|text|];
        text := text[..|text| - 1];
      }
      if Valid(data) {
        ghost var dropped := CutIsNearBoundary(data, maxBytes);
        assert Valid(data[..maxBytes - dropped]);
      }
    }
  }

  /** What the program takes from its libraries: lower case, white space, the media types
      of bytes and of extensions (none is empty), and the CSV reader. */
  datatype Library = Library(
    lower: string -> string, space: char -> bool, detect: seq<byte> -> string, byExtension: string -> string,
    read: seq<byte> -> CsvFile)

  /** The name's extension: from the last dot of its last path element on. */
  function Extension(name: string): (r: string)
    ensures |r| <= |name| && r == name[|name| - |r|..]
    ensures r != "" ==> r[0] == '.' && '.' !in r[1..] && '/' !in r
    ensures r == "" ==> forall i | 0 <= i < |name| && name[i] == '.' :: '/' in name[i..]
  {
    if name == "" || name[|name| - 1] == '/' then ""
    else if name[|name| - 1] == '.' then "."
    else
      var before := Extension(name[..|name| - 1]);
      if before == "" then "" else before + [name[|name| - 1]]
  }

  /** The front of a string up to the first `stop`. */
  function UpTo(s: string, stop: char): (r: string)
    ensures r <= s && stop !in r && (|r| < |s| ==> s[|r|] == stop)
  {
    if s == "" || s[0] == stop then "" else [s[0]] + UpTo(s[1..], stop)
  }

  /** A string without the white space at its ends. */
  function Trimmed(space: char -> bool, s: string): (r: string)
    ensures r != "" ==> !space(r[0]) && !space(r[|r| - 1])
    ensures (forall c | c in s :: !space(c)) ==> r == s
    ensures (forall c | c in s :: space(c)) <==> r == ""
  {
    if s == "" then ""
    else if space(s[0]) then Trimmed(space, s[1..])
    else if space(s[|s| - 1]) then Trimmed(space, s[..|s| - 1])
    else s
  }

  /** The media type a client names, without its parameters. */
  function Named(lib: Library, client: string): string {
    Trimmed(lib.space, UpTo(client, ';'))
  }

  /** `r` is the stretch of `s` from `from` on, with white space around it. */
  predicate Inside(space: char -> bool, s: string, from: nat, r: string) {
    && from + |r| <= |s| && s[from..from + |r|] == r
    && forall k | 0 <= k < |s| && !(from <= k < from + |r|) :: space(s[k])
  }

  lemma InsideBehind(space: char -> bool, s: string, from: nat, r: string)
    requires s != "" && space(s[0]) && Inside(space, s[1..], from, r)
    ensures Inside(space, s, from + 1, r)
  {
    assert s[from + 1..from + 1 + |r|] == s[1..][from..from + |r|];
    forall k | 0 <= k < |s| && !(from + 1 <= k < from + 1 + |r|) ensures space(s[k]) {
      assert k > 0 ==> s[k] == s[1..][k - 1];
    }
  }

  lemma InsideBefore(space: char -> bool, s: string, from: nat, r: string)
    requires s != "" && space(s[|s| - 1]) && Inside(space, s[..|s| - 1], from, r)
    ensures Inside(space, s, from, r)
  {
    assert s[from..from + |r|] == s[..|s| - 1][from..from + |r|];
    forall k | 0 <= k < |s| && !(from <= k < from + |r|) ensures space(s[k]) {
      assert k < |s| - 1 ==> s[k] == s[..|s| - 1][k];
    }
  }

  /** Only white space is trimmed, and only at the ends. */
  lemma {:induction false} TrimmedIsInside(space: char -> bool, s: string) returns (from: nat)
    ensures Inside(space, s, from, Trimmed(space, s))
  {
    from := 0;
    if s != "" && space(s[0]) {
      hide Inside;
      var inner := TrimmedIsInside(space, s[1..]);
      InsideBehind(space, s, inner, Trimmed(space, s));
      from := inner + 1;
    } else if s != "" && space(s[|s| - 1]) {
      hide Inside;
      from := TrimmedIsInside(space, s[..|s| - 1]);
      InsideBefore(space, s, from, Trimmed(space, s));
    }
  }

  lemma {:induction false} UpToStops(s: string, stop: char, rest: string)
    requires stop !in s
    ensures UpTo(s, stop) == s && UpTo(s + [stop] + rest, stop) == s
  {
    if s != "" {
      UpToStops(s[1..], stop, rest);
      assert (s + [stop] + rest)[1..] == s[1..] + [stop] + rest;
    }
  }

  /** The parameters of a media type do not matter. */
  lemma NamedWithoutParameters(lib: Library, mediaType: string, parameters: string)
    requires ';' !in mediaType
    ensures Named(lib, mediaType + ";" + parameters) == Named(lib, mediaType) == Trimmed(lib.space, mediaType)
  {
    UpToStops(mediaType, ';', parameters);
  }

  /** Format, state and media type of an upload. */
  method Classify(lib: Library, filename: string, client: string, data: seq<byte>)
    returns (format: AssetFormat, state: AssetState, mediaType: string)
    ensures Named(lib, client) !in ["", "application/octet-stream"] ==> mediaType == Named(lib, client)
    ensures Named(lib, client) in ["", "application/octet-stream"] ==>
      var guessed := lib.byExtension(lib.lower(Extension(filename)));
      mediaType == if guessed != "" then guessed else lib.detect(data)
    ensures state == Ready || state == ParseFailed
    ensures state == ParseFailed <==>
      lib.lower(Extension(filename)) == ".csv" && (lib.read(data).records == [] || lib.read(data).malformed)
    ensures format == Csv <==> lib.lower(Extension(filename)) == ".csv"
    ensures format == Text <==> lib.lower(Extension(filename)) == ".txt" && Valid(data)
    ensures format == Markdown <==> lib.lower(Extension(filename)) == ".md" && Valid(data)
  {
    var ext := lib.lower(Extension(filename));
    mediaType := Named(lib, client);
    if mediaType == "" || mediaType == "application/octet-stream" {
      mediaType := lib.detect(data);
      var guessed := lib.byExtension(ext);
      if guessed != "" {
        mediaType := guessed;
      }
    }
    format, state := Binary, Ready;
    if ext == ".txt" || ext == ".md" {
      if !Valid(data) {
        return;
      }
      format := if ext == ".txt" then Text else Markdown;
    } else if ext == ".csv" {
      format := Csv;
      var file := lib.read(data);
      if file.records == [] || file.malformed {
        state := ParseFailed;
      }
    }
  }

  predicate Formula(cell: string) {
    HasPrefix(cell, "=") || HasPrefix(cell, "+") || HasPrefix(cell, "-") || HasPrefix(cell, "@")
  }

  /** A cell a spreadsheet would evaluate is quoted; every other cell is unchanged. */
  function Neutral(cell: string): (r: string)
    ensures !Formula(r) && (!Formula(cell) ==> r == cell)
    ensures r == cell || r == "'" + cell
  {
    if Formula(cell) then
      assert ("'" + cell)[0] == '\'';
      "'" + cell
    else cell
  }

  /** A cell is quoted exactly when it begins with one of four characters. */
  lemma QuotedWhen(cell: string)
    ensures Neutral(cell) ==
            if cell != "" && (cell[0] == '=' || cell[0] == '+' || cell[0] == '-' || cell[0] == '@')
            then "'" + cell else cell
  {
  }

  method NeutralizeRow(row: Row) returns (r: Row)
    ensures |r| == |row| && forall i | 0 <= i < |row| :: r[i] == Neutral(row[i])
  {
    r := row;
    for i := 0 to |row|
      invariant |r| == |row|
      invariant forall k | 0 <= k < i :: r[k] == Neutral(row[k])
      invariant forall k | i <= k < |row| :: r[k] == row[k]
    {
      if Formula(r[i]) {
        r := r[i := "'" + r[i]];
      }
    }
  }

  datatype CsvPreview = CsvPreview(headers: Row, rows: seq<Row>, truncated: bool)

  predicate PreviewOf(file: CsvFile, maxRows: nat, p: CsvPreview)
    requires file.records != []
  {
    && p.headers == file.records[0]
    && |p.rows| == Min(maxRows, |file.records| - 1)
    && (forall r | 0 <= r < |p.rows| ::
          && |p.rows[r]| == |file.records[r + 1]|
          && forall i | 0 <= i < |p.rows[r]| :: p.rows[r][i] == Neutral(file.records[r + 1][i]))
    && (p.truncated <==> |file.records| - 1 > maxRows)
  }

  /** No data cell of a preview is one a spreadsheet would evaluate. */
  lemma PreviewIsSafe(file: CsvFile, maxRows: nat, p: CsvPreview, r: nat, i: nat)
    requires file.records != [] && PreviewOf(file, maxRows, p) && r < |p.rows| && i < |p.rows[r]|
    ensures p.rows[r][i] == "" || p.rows[r][i][0] !in ['=', '+', '-', '@']
    ensures r + 1 < |file.records| && i < |file.records[r + 1]|
    ensures p.rows[r][i] == file.records[r + 1][i] || p.rows[r][i] == "'" + file.records[r + 1][i]
  {
    QuotedWhen(file.records[r + 1][i]);
  }

  /** The CSV branch of the preview.  A parse error matters only when the reader
      reaches it, at most one row past the bound. */
  method BuildCsvPreview(state: AssetState, file: CsvFile, maxRows: nat) returns (r: Result<CsvPreview, Code>)
    ensures r.Ok? <==> state != ParseFailed && file.records != [] && (!file.malformed || |file.records| - 1 > maxRows)
    ensures r.Ok? ==> PreviewOf(file, maxRows, r.value)
    ensures r.Err? ==> r.error == AssetParseFailed
  {
    if state == ParseFailed || file.records == [] {
      return Err(AssetParseFailed);
    }
    var rows: seq<Row>, truncated := [], false;
    while |rows| <= maxRows
      invariant |rows| <= maxRows && |rows| <= |file.records| - 1 && !truncated
      invariant forall k | 0 <= k < |rows| ::
        && |rows[k]| == |file.records[k + 1]|
        && forall i | 0 <= i < |rows[k]| :: rows[k][i] == Neutral(file.records[k + 1][i])
      decreases |file.records| - |rows|
    {
      if |rows| + 1 == |file.records| {
        if file.malformed {
          return Err(AssetParseFailed);
        }
        break;
      }
      if |rows| == maxRows {
        truncated := true;
        break;
      }
      var row := NeutralizeRow(file.records[|rows| + 1]);
      rows := rows + [row];
    }
    return Ok(CsvPreview(file.records[0], rows, truncated));
  }

  /** A CSV upload classified as ready never fails to preview. */
  method ClassifyThenPreview(lib: Library, filename: string, client: string, data: seq<byte>, maxRows: nat)
    returns (r: Result<CsvPreview, Code>)
    requires lib.lower(Extension(filename)) == ".csv"
    ensures lib.read(data).records != [] && !lib.read(data).malformed ==>
      r.Ok? && PreviewOf(lib.read(data), maxRows, r.value)
    ensures lib.read(data).records == [] || lib.read(data).malformed ==> r == Err(AssetParseFailed)
  {
    var format, state, mediaType := Classify(lib, filename, client, data);
    r := BuildCsvPreview(state, lib.read(data), maxRows);
  }
}
