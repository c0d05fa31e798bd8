/** The newline-delimited JSON decoder (packages/protocol/src/jsonl.ts).  Text is a sequence of
    characters; `parse` stands for `JSON.parse` with the test for an object. */
module Jsonl {
  import opened Wrappers

  datatype Error = RecordTooLarge | InvalidJsonl | Unterminated

  /** What reading some text yields: the records of its complete lines, the text behind them,
      and the error of the first bad line, behind which reading stops. */
  datatype Reading<T> = Reading(records: seq<T>, rest: string, error: Option<Error>)

  /** The length of a character in UTF-8. */
  function Width(c: char): nat {
    if c as int < 0x80 then 1 else if c as int < 0x800 then 2 else if c as int < 0x10000 then 3 else 4
  }

  /** `Buffer.byteLength` */
  function ByteLength(s: string): nat {
    if s == "" then 0 else ByteLength(s[..|s| - 1]) + Width(s[|s| - 1])
  }

  /** `indexOf("\n")`, or the length when there is none. */
  function LineEnd(text: string): (n: nat)
    ensures n <= |text| && (n < |text| ==> text[n] == '\n') && '\n' !in text[..n]
  {
    if text == "" || text[0] == '\n' then 0
    else
      var n := 1 + LineEnd(text[1..]);
      assert text[..n] == [text[0]] + text[1..][..n - 1];
      n
  }

  function WithoutReturn(line: string): string {
    if line != "" && line[|line| - 1] == '\r' then line[..|line| - 1] else line
  }

  function ReadLine<T>(raw: string, max: int, parse: string -> Option<T>): Result<T, Error> {
    var line := WithoutReturn(raw);
    if ByteLength(line) > max then Err(RecordTooLarge)
    else if line == "" || parse(line).None? then Err(InvalidJsonl)
    else Ok(parse(line).value)
  }

  /** Reads all complete lines. */
  function Read<T>(text: string, max: int, parse: string -> Option<T>): Reading<T> {
    var n := LineEnd(text);
    if n == |text| then Reading([], text, None)
    else
      var line, rest := ReadLine(text[..n], max, parse), text[n + 1..];
      if line.Err? then Reading([], rest, Some(line.error))
      else Prefixed([line.value], Read(rest, max, parse))
  }

  /** A reading behind records that were read before. */
  function Prefixed<T>(records: seq<T>, reading: Reading<T>): Reading<T> {
    reading.(records := records + reading.records)
  }

  lemma PrefixedTwice<T>(a: seq<T>, b: seq<T>, reading: Reading<T>)
    ensures Prefixed(a, Prefixed(b, reading)) == Prefixed(a + b, reading)
  {
    assert a + (b + reading.records) == (a + b) + reading.records;
  }

  lemma ReadStep<T>(text: string, max: int, parse: string -> Option<T>)
    ensures var n := LineEnd(text);
            if n == |text| then Read(text, max, parse) == Reading([], text, None)
            else
              var line := ReadLine(text[..n], max, parse);
              Read(text, max, parse) == if line.Err? then Reading([], text[n + 1..], Some(line.error))
                                        else Prefixed([line.value], Read(text[n + 1..], max, parse))
  {
  }

  /** The limit on what is kept for the next chunk. */
  function Limited<T>(reading: Reading<T>, max: int): Reading<T> {
    if reading.error.None? && ByteLength(reading.rest) > max then reading.(error := Some(RecordTooLarge)) else reading
  }

  function Push<T>(pending: string, chunk: string, max: int, parse: string -> Option<T>): Reading<T> {
    Limited(Read(pending + chunk, max, parse), max)
  }
}

/** The decoder object, proved against the functions of `Jsonl`. */
module JsonlClass {
  import opened Wrappers
  import opened Jsonl

  class JsonlDecoder<T> {
    const maxRecordBytes: int
    const parse: string -> Option<T>
    var pending: string

    constructor (maxRecordBytes: int, parse: string -> Option<T>)
      ensures this.maxRecordBytes == maxRecordBytes && this.parse == parse && pending == ""
    {
      this.maxRecordBytes, this.parse, pending := maxRecordBytes, parse, "";
    }

    method Push(chunk: string) returns (result: Result<seq<T>, Error>)
      modifies this`pending
      ensures var reading := Jsonl.Push(old(pending), chunk, maxRecordBytes, parse);
              && pending == reading.rest
              && result == if reading.error.Some? then Err(reading.error.value) else Ok(reading.records)
    {
      hide Read, ByteLength;
      pending := pending + chunk;
      ghost var text := pending;
      var records: seq<T> := [];
      var newline := LineEnd(pending);
      assert Prefixed([], Read(text, maxRecordBytes, parse)) == Read(text, maxRecordBytes, parse);
      while newline < |pending|
        invariant newline == LineEnd(pending)
        invariant Read(text, maxRecordBytes, parse) == Prefixed(records, Read(pending, maxRecordBytes, parse))
        decreases |pending|
      {
        ReadStep(pending, maxRecordBytes, parse);
        var line := WithoutReturn(pending[..newline]);
        pending := pending[newline + 1..];
        if ByteLength(line) > maxRecordBytes { return Err(RecordTooLarge); }
        if line == "" { return Err(InvalidJsonl); }
        var value := parse(line);
        if value.None? { return Err(InvalidJsonl); }
        PrefixedTwice(records, [value.value], Read(pending, maxRecordBytes, parse));
        records := records + [value.value];
        newline := LineEnd(pending);
      }
      ReadStep(pending, maxRecordBytes, parse);
      assert records + [] == records;
      if ByteLength(pending) > maxRecordBytes { return Err(RecordTooLarge); }
      return Ok(records);
    }

    method End() returns (result: Result<seq<T>, Error>)
      ensures result == if pending == "" then Ok([]) else Err(Unterminated)
    {
      if pending != "" { return Err(Unterminated); }
      return Ok([]);
    }
  }
}

/** How the decoder treats chunks, and what it makes of encoded values. */
module JsonlProperties {
  import opened Wrappers
  import opened Jsonl

  // ---------------------------------------------------------------- chunks

  /** Pushes the chunks one after the other until one fails. */
  function PushAll<T>(pending: string, chunks: seq<string>, max: int, parse: string -> Option<T>): Reading<T> {
    if chunks == [] then Reading([], pending, None)
    else
      var before := PushAll(pending, chunks[..|chunks| - 1], max, parse);
      if before.error.Some? then before
      else
        Prefixed(before.records, Push(before.rest, chunks[|chunks| - 1], max, parse))
  }

  function Concat(chunks: seq<string>): string {
    if chunks == [] then "" else Concat(chunks[..|chunks| - 1]) + chunks[|chunks| - 1]
  }

  /** The text behind the last newline. */
  function Tail(text: string): string
    decreases |text|
  {
    var n := LineEnd(text);
    if n == |text| then text else Tail(text[n + 1..])
  }

  /** At every end of a chunk, the line begun so far is within the limit. */
  ghost predicate TailsFit(chunks: seq<string>, max: int) {
    chunks == [] || (TailsFit(chunks[..|chunks| - 1], max) && ByteLength(Tail(Concat(chunks))) <= max)
  }

  lemma LineEndOf(text: string, n: nat)
    requires n <= |text| && '\n' !in text[..n] && (n < |text| ==> text[n] == '\n')
    ensures LineEnd(text) == n
  {
    var m := LineEnd(text);
    assert forall k :: 0 <= k < n ==> text[..n][k] == text[k];
    assert forall k :: 0 <= k < m ==> text[..m][k] == text[k];
  }

  /** Reading goes on where it stopped; a bad line stops it for good. */
  lemma {:induction false} ReadConcat<T>(a: string, b: string, max: int, parse: string -> Option<T>)
    ensures var first := Read(a, max, parse);
            Read(a + b, max, parse) == if first.error.Some? then first.(rest := first.rest + b)
                                       else Prefixed(first.records, Read(first.rest + b, max, parse))
    decreases |a|
  {
    hide Read, ReadLine;
    var n := LineEnd(a);
    ReadStep(a, max, parse);
    ReadStep(a + b, max, parse);
    if n < |a| {
      LineEndOfLonger(a, b);
      var line := ReadLine(a[..n], max, parse);
      if line.Ok? {
        ReadConcat(a[n + 1..], b, max, parse);
        var first := Read(a[n + 1..], max, parse);
        PrefixedTwice([line.value], first.records, Read(first.rest + b, max, parse));
      }
    } else {
      assert [] + Read(a + b, max, parse).records == Read(a + b, max, parse).records;
    }
  }

  lemma LineEndOfLonger(a: string, b: string)
    requires LineEnd(a) < |a|
    ensures var n := LineEnd(a);
            LineEnd(a + b) == n && (a + b)[..n] == a[..n] && (a + b)[n + 1..] == a[n + 1..] + b
  {
    var n := LineEnd(a);
    assert (a + b)[..n] == a[..n];
    LineEndOf(a + b, n);
  }

  lemma {:induction false} RestIsTail<T>(text: string, max: int, parse: string -> Option<T>)
    requires Read(text, max, parse).error.None?
    ensures Read(text, max, parse).rest == Tail(text)
    decreases |text|
  {
    var n := LineEnd(text);
    if n < |text| { RestIsTail(text[n + 1..], max, parse); }
  }

  /** Chunking: the pushes of a chunked text all succeed exactly when reading the whole text
      meets no bad line and no unfinished line at the end of a chunk is over the limit; they
      then give the records and the rest of the whole.  If no unfinished line is over the limit,
      a bad line is reported as the whole text's own error, behind the same records. */
  lemma {:induction false} ChunksReadAsWhole<T>(chunks: seq<string>, max: int, parse: string -> Option<T>)
    ensures var whole, pushed := Read(Concat(chunks), max, parse), PushAll("", chunks, max, parse);
            && (pushed.error.None? <==> whole.error.None? && TailsFit(chunks, max))
            && (pushed.error.None? ==> pushed == whole)
            && (TailsFit(chunks, max) ==> pushed.error == whole.error && pushed.records == whole.records)
  {
    hide Read, Push, Tail, ByteLength;
    if chunks == [] {
      ReadPiece("", max, parse);
    } else {
      var n := |chunks| - 1;
      ChunksReadAsWhole(chunks[..n], max, parse);
      var before := PushAll("", chunks[..n], max, parse);
      ReadConcat(Concat(chunks[..n]), chunks[n], max, parse);
      if before.error.None? { PushIs(before.rest, chunks[n], max, parse); }
      if Read(Concat(chunks), max, parse).error.None? { RestIsTail(Concat(chunks), max, parse); }
    }
  }

  lemma PushIs<T>(pending: string, chunk: string, max: int, parse: string -> Option<T>)
    ensures Push(pending, chunk, max, parse) == Limited(Read(pending + chunk, max, parse), max)
  {
  }

  /** So one push of the whole succeeds whenever the chunked pushes do. */
  lemma ChunkedImpliesWhole<T>(chunks: seq<string>, max: int, parse: string -> Option<T>)
    requires chunks != [] && PushAll("", chunks, max, parse).error.None?
    ensures Push("", Concat(chunks), max, parse) == PushAll("", chunks, max, parse)
  {
    hide Read, PushAll, Tail, ByteLength, Concat;
    ChunksReadAsWhole(chunks, max, parse);
    RestIsTail(Concat(chunks), max, parse);
    assert "" + Concat(chunks) == Concat(chunks);
  }

  /** The converse fails: a carriage return counts at the end of a chunk but not in a line. */
  lemma ReturnAtChunkEnd<T>(line: string, parse: string -> Option<T>)
    requires line != "" && '\n' !in line && parse(line).Some? && line[|line| - 1] != '\r'
    ensures var max := ByteLength(line);
            && PushAll("", [line + "\r\n"], max, parse).error.None?
            && PushAll("", [line + "\r", "\n"], max, parse).error == Some(RecordTooLarge)
  {
    hide Read, ReadLine, PushAll, ByteLength;
    var max, returned := ByteLength(line), line + "\r";
    ReturnCounts(line);
    ReadPiece(returned, max, parse);
    ReadsAs(returned, line, max, parse);
    assert line + "\r\n" == returned + "\n";
    PushOne(line + "\r\n", max, parse);
    PushFails(returned, "\n", max, parse);
    EmptyFits();
  }

  lemma ReadsAs<T>(raw: string, line: string, max: int, parse: string -> Option<T>)
    requires WithoutReturn(raw) == line && ByteLength(line) <= max && line != "" && parse(line).Some?
    ensures ReadLine(raw, max, parse) == Ok(parse(line).value)
  {
  }

  lemma EmptyFits()
    ensures ByteLength("") == 0
  {
  }

  lemma ReturnCounts(line: string)
    ensures WithoutReturn(line + "\r") == line && ByteLength(line + "\r") == ByteLength(line) + 1
  {
    assert (line + "\r")[..|line|] == line;
  }

  lemma PushOne<T>(chunk: string, max: int, parse: string -> Option<T>)
    ensures PushAll("", [chunk], max, parse) == Limited(Read(chunk, max, parse), max)
  {
    hide Read, ByteLength;
    assert [chunk][..0] == [] && "" + chunk == chunk;
    var none: seq<string> := [];
    assert PushAll("", none, max, parse) == Reading([], "", None);
  }

  lemma PushFails<T>(chunk: string, next: string, max: int, parse: string -> Option<T>)
    requires Limited(Read(chunk, max, parse), max).error.Some?
    ensures PushAll("", [chunk, next], max, parse).error == Limited(Read(chunk, max, parse), max).error
  {
    hide Read, ByteLength;
    PushOne(chunk, max, parse);
    assert [chunk, next][..1] == [chunk];
  }

  /** Reading a piece without line breaks, and the same piece as a line. */
  lemma ReadPiece<T>(piece: string, max: int, parse: string -> Option<T>)
    requires '\n' !in piece
    ensures Read(piece, max, parse) == Reading([], piece, None)
    ensures var line := ReadLine(piece, max, parse);
            Read(piece + "\n", max, parse) == if line.Ok? then Reading([line.value], "", None)
              else Reading([], "", Some(line.error))
  {
    assert piece[..|piece|] == piece;
    LineEndOf(piece, |piece|);
    var text := piece + "\n";
    assert text[..|piece|] == piece && text[|piece| + 1..] == "";
    LineEndOf(text, |piece|);
    assert LineEnd("") == 0;
    hide ReadLine, LineEnd;
  }

  // ---------------------------------------------------------------- encoding

  /** What is asked of JSON.stringify: a non-empty text without line breaks that parses back. */
  ghost predicate Printable<T>(v: T, stringify: T -> string, max: int, parse: string -> Option<T>) {
    && parse(stringify(v)) == Some(v) && stringify(v) != "" && '\n' !in stringify(v)
    && stringify(v)[|stringify(v)| - 1] != '\r' && ByteLength(stringify(v)) <= max
  }

  function EncodeJsonl<T>(v: T, stringify: T -> string): string {
    stringify(v) + "\n"
  }

  function EncodeAll<T>(values: seq<T>, stringify: T -> string): string {
    if values == [] then ""
    else EncodeAll(values[..|values| - 1], stringify) + EncodeJsonl(values[|values| - 1], stringify)
  }

  lemma ReadOneMore<T>(before: string, values: seq<T>, v: T, text: string, max: int, parse: string -> Option<T>)
    requires Read(before, max, parse) == Reading(values, "", None) && '\n' !in text
        && ReadLine(text, max, parse) == Ok(v)
    ensures Read(before + (text + "\n"), max, parse) == Reading(values + [v], "", None)
  {
    hide Read, ReadLine;
    ReadConcat(before, text + "\n", max, parse);
    assert "" + (text + "\n") == text + "\n";
    ReadPiece(text, max, parse);
  }

  lemma {:induction false} EncodedReads<T>(values: seq<T>, stringify: T -> string, max: int, parse: string -> Option<T>)
    requires forall k :: 0 <= k < |values| ==> Printable(values[k], stringify, max, parse)
    ensures Read(EncodeAll(values, stringify), max, parse) == Reading(values, "", None)
  {
    hide Read;
    if values == [] {
      ReadPiece("", max, parse);
    } else {
      var n := |values| - 1;
      var text := stringify(values[n]);
      EncodedReads(values[..n], stringify, max, parse);
      ReadOneMore(EncodeAll(values[..n], stringify), values[..n], values[n], text, max, parse);
      assert values[..n] + [values[n]] == values;
    }
  }

  lemma {:induction false} PrefixIsShorter(text: string, k: nat)
    requires k <= |text|
    ensures ByteLength(text[..k]) <= ByteLength(text)
  {
    if k == |text| {
      assert text[..k] == text;
    } else {
      PrefixIsShorter(text[..|text| - 1], k);
      assert text[..|text| - 1][..k] == text[..k];
    }
  }

  lemma {:induction false} PrefixTailFits<T>(values: seq<T>, k: nat, stringify: T -> string, max: int,
      parse: string -> Option<T>)
    requires max >= 0 && forall j :: 0 <= j < |values| ==> Printable(values[j], stringify, max, parse)
    requires k <= |EncodeAll(values, stringify)|
    ensures ByteLength(Tail(EncodeAll(values, stringify)[..k])) <= max
  {
    hide Read, ByteLength, Tail;
    var all := EncodeAll(values, stringify);
    if values == [] {
      assert all[..k] == "";
      ReadPiece("", max, parse);
      RestIsTail("", max, parse);
      EmptyFits();
    } else {
      var n := |values| - 1;
      var before, text := EncodeAll(values[..n], stringify), stringify(values[n]);
      if k <= |before| {
        PrefixTailFits(values[..n], k, stringify, max, parse);
        assert all[..k] == before[..k];
      } else if k == |all| {
        EncodedReads(values, stringify, max, parse);
        RestIsTail(all, max, parse);
        assert all[..k] == all;
        EmptyFits();
      } else {
        var begun := text[..k - |before|];
        assert all[..k] == before + begun && "" + begun == begun;
        EncodedReads(values[..n], stringify, max, parse);
        ReadConcat(before, begun, max, parse);
        ReadPiece(begun, max, parse);
        RestIsTail(all[..k], max, parse);
        PrefixIsShorter(text, k - |before|);
      }
    }
  }

  lemma {:induction false} ConcatPrefix(chunks: seq<string>, n: nat)
    requires n <= |chunks|
    ensures |Concat(chunks[..n])| <= |Concat(chunks)|
    ensures Concat(chunks[..n]) == Concat(chunks)[..|Concat(chunks[..n])|]
  {
    if n == |chunks| {
      assert chunks[..n] == chunks;
    } else {
      ConcatPrefix(chunks[..|chunks| - 1], n);
      assert chunks[..|chunks| - 1][..n] == chunks[..n];
    }
  }

  lemma {:induction false} EncodedTailsFit<T>(values: seq<T>, chunks: seq<string>, n: nat, stringify: T -> string,
      max: int, parse: string -> Option<T>)
    requires max >= 0 && forall k :: 0 <= k < |values| ==> Printable(values[k], stringify, max, parse)
    requires Concat(chunks) == EncodeAll(values, stringify) && n <= |chunks|
    ensures TailsFit(chunks[..n], max)
  {
    if n > 0 {
      EncodedTailsFit(values, chunks, n - 1, stringify, max, parse);
      assert chunks[..n][..n - 1] == chunks[..n - 1];
      ConcatPrefix(chunks, n);
      PrefixTailFits(values, |Concat(chunks[..n])|, stringify, max, parse);
    }
  }

  /** Any list of printable values, encoded and split into chunks anywhere, decodes to that list
      and leaves nothing behind, so that `end` succeeds. */
  lemma EncodedInChunks<T>(values: seq<T>, chunks: seq<string>, stringify: T -> string, max: int,
      parse: string -> Option<T>)
    requires max >= 0 && forall k :: 0 <= k < |values| ==> Printable(values[k], stringify, max, parse)
    requires Concat(chunks) == EncodeAll(values, stringify)
    ensures PushAll("", chunks, max, parse) == Reading(values, "", None)
  {
    EncodedReads(values, stringify, max, parse);
    EncodedTailsFit(values, chunks, |chunks|, stringify, max, parse);
    assert chunks[..|chunks|] == chunks;
    ChunksReadAsWhole(chunks, max, parse);
  }

  // ---------------------------------------------------------------- the limit on a record

  /** UTF-8 (section 3 of RFC 3629). */
  function Utf8(c: char): seq<int> {
    var n := c as int;
    var n1 := n / 0x40;
    var n2 := n1 / 0x40;
    if n < 0x80 then [n]
    else if n < 0x800 then [0xC0 + n1, 0x80 + n % 0x40]
    else if n < 0x1_0000 then [0xE0 + n2, 0x80 + n1 % 0x40, 0x80 + n % 0x40]
    else [0xF0 + n2 / 0x40, 0x80 + n2 % 0x40, 0x80 + n1 % 0x40, 0x80 + n % 0x40]
  }

  /** The number that some UTF-8 bytes encode, by the first of them. */
  function Scalar(bytes: seq<int>): int
    requires bytes != [] && |bytes| <= 4
  {
    match |bytes|
    case 1 => bytes[0]
    case 2 => (bytes[0] - 0xC0) * 0x40 + bytes[1] - 0x80
    case 3 => ((bytes[0] - 0xE0) * 0x40 + bytes[1] - 0x80) * 0x40 + bytes[2] - 0x80
    case _ => (((bytes[0] - 0xF0) * 0x40 + bytes[1] - 0x80) * 0x40 + bytes[2] - 0x80) * 0x40 + bytes[3] - 0x80
  }

  /** `Width` counts the bytes from which the character can be read back. */
  lemma WidthIsUtf8(c: char)
    ensures |Utf8(c)| == Width(c) && Scalar(Utf8(c)) == c as int
    ensures forall k :: 0 <= k < |Utf8(c)| ==> 0 <= Utf8(c)[k] < 0x100
  {
  }

  /** One terminated line: the text before LF or CR LF is a record if and only if it is within the limit,
      not empty and parses; and what is wrong with it is said in that order. */
  lemma LineIsRecordIff<T>(body: string, crlf: bool, max: int, parse: string -> Option<T>)
    requires '\n' !in body && (body == "" || body[|body| - 1] != '\r')
    ensures var reading := Jsonl.Push("", body + (if crlf then "\r\n" else "\n"), max, parse);
            if ByteLength(body) > max then reading == Reading([], "", Some(RecordTooLarge))
            else if body == "" || parse(body).None? then reading == Reading([], "", Some(InvalidJsonl))
            else reading == Reading([parse(body).value], "", None)
  {
    hide ByteLength, Read, LineEnd, WithoutReturn, Jsonl.Push;
    StrippedLine(body);
    if crlf {
      Associative(body, "\r", "\n");
      assert "\r" + "\n" == "\r\n";
      OneLine(body + "\r", max, parse);
    } else {
      OneLine(body, max, parse);
    }
    NoNegativeLength(body);
  }

  lemma OneLine<T>(line: string, max: int, parse: string -> Option<T>)
    requires '\n' !in line
    ensures var record := ReadLine(line, max, parse);
            Jsonl.Push("", line + "\n", max, parse)
              == if record.Err? then Reading([], "", Some(record.error))
                 else Reading([record.value], "", if max < 0 then Some(RecordTooLarge) else None)
  {
    hide ByteLength, Read, LineEnd, ReadLine;
    assert "" + (line + "\n") == line + "\n";
    LineOf(line);
    ReadStep(line + "\n", max, parse);
    NothingRead(max, parse);
  }

  lemma LineOf(line: string)
    requires '\n' !in line
    ensures var text, n := line + "\n", LineEnd(line + "\n");
            n == |line| && text[..n] == line && text[n + 1..] == ""
  {
    hide LineEnd;
    var text := line + "\n";
    assert text[|line|] == '\n' && forall k :: 0 <= k < |line| ==> text[k] == line[k];
    assert forall k :: 0 <= k < LineEnd(text) ==> text[..LineEnd(text)][k] == text[k];
  }

  lemma NoNegativeLength(body: string)
    ensures ByteLength(body) >= 0
  {
  }

  lemma StrippedLine(body: string)
    requires body == "" || body[|body| - 1] != '\r'
    ensures WithoutReturn(body + "\r") == body && WithoutReturn(body) == body
  {
    assert (body + "\r")[..|body|] == body;
  }

  lemma NothingRead<T>(max: int, parse: string -> Option<T>)
    ensures Read("", max, parse) == Reading([], "", None) && ByteLength("") == 0
  {
  }
}
