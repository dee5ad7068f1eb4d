/** The trouble-code decoder: `prune_data` (reader.py:24-29), `data_to_trouble_codes`
    (reader.py:31-38) and `get_trouble_code_data` (reader.py:40-51). The two lookup
    tables are parameters: `prefixes` maps the first character of a raw chunk to the
    code's category letters, `descriptions` maps a rendered code to its text. */
module TroubleCodeDecoder {
  import opened Failures
  import opened Text
  import opened Serial
  import opened FrameReader

  /** Characters consumed per trouble code. */
  const CodeWidth := 4

  /** What the report says for a code the description table does not know. */
  const Placeholder := "[DESCRIPTION NOT FOUND] "

  // ---------------------------------------------------------------------------
  // Pruning

  /** `line[n:]`: empty when the line is not longer than `n`. */
  function DropPrefix(line: string, n: nat): string
  {
    if |line| <= n then [] else line[n..]
  }

  /** The lines, each without its first `width` characters, run together. */
  function PruneLines(lines: seq<string>, width: nat): string
  {
    if lines == [] then [] else DropPrefix(lines[0], width) + PruneLines(lines[1..], width)
  }

  /** What `prune_data(data, removeByteCount)` returns. */
  function Pruned(data: string, removeByteCount: nat): (pruned: string)
    ensures '\n' !in pruned
  {
    PruneLinesHasNoNewline(Split(data, '\n'), 2 * removeByteCount);
    PruneLines(Split(data, '\n'), 2 * removeByteCount)
  }

  /** Pruning lines that hold no newline gives a text without newlines. */
  lemma {:induction false} PruneLinesHasNoNewline(lines: seq<string>, width: nat)
    requires forall i :: 0 <= i < |lines| ==> '\n' !in lines[i]
    ensures '\n' !in PruneLines(lines, width)
  {
    if lines != [] {
      PruneLinesHasNoNewline(lines[1..], width);
      var line := lines[0];
      if |line| > width {
        assert forall j :: 0 <= j < |line[width..]| ==> line[width..][j] == line[width + j];
      }
    }
  }

  /** The pruned text is the remainders of the newline-separated lines, in order. */
  lemma PrunedJoinedLines(lines: seq<string>, removeByteCount: nat)
    requires |lines| >= 1
    requires forall i :: 0 <= i < |lines| ==> '\n' !in lines[i]
    ensures Pruned(Join(lines, '\n'), removeByteCount) == PruneLines(lines, 2 * removeByteCount)
  {
    SplitJoin(lines, '\n');
  }

  /** Removing nothing from each line only deletes the newlines. */
  lemma {:induction false} PruneNothing(data: string)
    ensures Pruned(data, 0) == RemoveAll(data, '\n')
    decreases |data|
  {
    if data != [] {
      PruneNothing(data[1..]);
      var tail := Split(data[1..], '\n');
      if data[0] == '\n' {
        assert Split(data, '\n')[1..] == tail;
      } else {
        var parts := Split(data, '\n');
        assert parts[1..] == tail[1..];
        assert PruneLines(tail, 0) == tail[0] + PruneLines(tail[1..], 0);
      }
    }
  }

  /** `prune_data(data, remove_byte_count)`. */
  method PruneData(data: string, removeByteCount: nat) returns (response: string)
    ensures response == Pruned(data, removeByteCount)
    ensures '\n' !in response
  {
    response := "";
    var lines := Split(data, '\n');
    var width := 2 * removeByteCount;
    for i := 0 to |lines|
      invariant response + PruneLines(lines[i..], width) == PruneLines(lines, width)
    {
      assert lines[i..][1..] == lines[i + 1..];
      response := response + DropPrefix(lines[i], width);
    }
    assert lines[|lines|..] == [];
    PruneLinesHasNoNewline(lines, width);
  }

  // ---------------------------------------------------------------------------
  // Tokenizing

  predicate IsDigit(c: char)
  {
    '0' <= c <= '9'
  }

  predicate AllDigits(s: string)
  {
    forall i :: 0 <= i < |s| ==> IsDigit(s[i])
  }

  /** The decimal value of a string of digits. */
  function DigitsValue(s: string): nat
    requires AllDigits(s)
  {
    if s == [] then 0 else DigitsValue(s[..|s| - 1]) * 10 + (s[|s| - 1] as int - '0' as int)
  }

  /** `int(s)`, for the strings the model accepts: one or more ASCII digits. */
  function ParseDecimal(s: string): (r: Option<nat>)
    ensures r.Some? <==> s != [] && AllDigits(s)
  {
    if s != [] && AllDigits(s) then Some(DigitsValue(s)) else None
  }

  /** A string of digits is worth zero exactly when every digit is `0`. */
  lemma {:induction false} DigitsValueZero(s: string)
    requires AllDigits(s)
    ensures DigitsValue(s) == 0 <==> forall i :: 0 <= i < |s| ==> s[i] == '0'
  {
    if s != [] {
      var init := s[..|s| - 1];
      DigitsValueZero(init);
      assert forall i :: 0 <= i < |init| ==> init[i] == s[i];
    }
  }

  /** The chunk `data[:4]`. */
  function Chunk(data: string): (chunk: string)
    ensures |chunk| <= CodeWidth
    ensures data != [] ==> chunk != []
  {
    data[..if |data| < CodeWidth then |data| else CodeWidth]
  }

  /** One turn of the loop in `data_to_trouble_codes`: a failure, nothing (the chunk is
      worth zero), or the rendered code. */
  function DecodeChunk(chunk: string, prefixes: map<char, string>): (r: Result<Option<string>>)
    ensures r == Ok(None) <==> chunk != [] && forall i :: 0 <= i < |chunk| ==> chunk[i] == '0'
  {
    match ParseDecimal(chunk)
    case None => Err(NotDecimal(chunk))
    case Some(v) =>
      DigitsValueZero(chunk);
      if v == 0 then Ok(None)
      else if chunk[0] in prefixes then Ok(Some(prefixes[chunk[0]] + chunk[1..]))
      else Err(UnknownPrefix(chunk[0]))
  }

  /** What `data_to_trouble_codes(data)` returns, or the failure it raises first. */
  function TroubleCodes(data: string, prefixes: map<char, string>): (r: Result<seq<string>>)
    decreases |data|
    ensures r.Ok? ==> |r.value| <= (|data| + CodeWidth - 1) / CodeWidth
  {
    if data == [] then Ok([])
    else
      var chunk := Chunk(data);
      var rest := TroubleCodes(data[|chunk|..], prefixes);
      match DecodeChunk(chunk, prefixes)
      case Err(e) => Err(e)
      case Ok(None) => rest
      case Ok(Some(code)) => if rest.Err? then rest else Ok([code] + rest.value)
  }

  /** `codes` followed by the codes of `r`, or the failure of `r`. */
  function Prepend(codes: seq<string>, r: Result<seq<string>>): Result<seq<string>>
  {
    match r
    case Ok(more) => Ok(codes + more)
    case Err(e) => Err(e)
  }

  /** One pass of the loop in `data_to_trouble_codes`: what the first chunk of `rest`
      does to the codes collected so far. */
  lemma ChunkStep(codes: seq<string>, rest: string, prefixes: map<char, string>)
    requires rest != []
    ensures var chunk := Chunk(rest);
      match ParseDecimal(chunk)
      case None => Prepend(codes, TroubleCodes(rest, prefixes)) == Err(NotDecimal(chunk))
      case Some(v) =>
        if v == 0 then
          Prepend(codes, TroubleCodes(rest, prefixes)) == Prepend(codes, TroubleCodes(rest[|chunk|..], prefixes))
        else if chunk[0] !in prefixes then
          Prepend(codes, TroubleCodes(rest, prefixes)) == Err(UnknownPrefix(chunk[0]))
        else
          Prepend(codes, TroubleCodes(rest, prefixes))
          == Prepend(codes + [prefixes[chunk[0]] + chunk[1..]], TroubleCodes(rest[|chunk|..], prefixes))
  {
    var chunk := Chunk(rest);
    var next := TroubleCodes(rest[|chunk|..], prefixes);
    match ParseDecimal(chunk)
    case None =>
    case Some(v) =>
      if v != 0 && chunk[0] in prefixes && next.Ok? {
        assert codes + ([prefixes[chunk[0]] + chunk[1..]] + next.value)
               == (codes + [prefixes[chunk[0]] + chunk[1..]]) + next.value;
      }
  }

  /** `data_to_trouble_codes(data)`. */
  method DataToTroubleCodes(data: string, prefixes: map<char, string>) returns (result: Result<seq<string>>)
    ensures result == TroubleCodes(data, prefixes)
  {
    var codes: seq<string> := [];
    var rest := data;
    assert Prepend(codes, TroubleCodes(rest, prefixes)) == TroubleCodes(data, prefixes) by {
      match TroubleCodes(rest, prefixes)
      case Ok(more) => assert codes + more == more;
      case Err(_) =>
    }
    while |rest| > 0
      invariant TroubleCodes(data, prefixes) == Prepend(codes, TroubleCodes(rest, prefixes))
    {
      var code := rest[..if |rest| < CodeWidth then |rest| else CodeWidth];
      assert code == Chunk(rest);
      var value := ParseDecimal(code);
      ChunkStep(codes, rest, prefixes);
      if value.None? {
        return Err(NotDecimal(code));
      }
      if value.value != 0 {
        if code[0] !in prefixes {
          return Err(UnknownPrefix(code[0]));
        }
        codes := codes + [prefixes[code[0]] + code[1..]];
      }
      rest := rest[|code|..];
    }
    assert codes + [] == codes;
    return Ok(codes);
  }

  /** The codes of two stretches, the first a whole number of chunks long: the first
      failure met, or all codes in order. */
  function AndThen(a: Result<seq<string>>, b: Result<seq<string>>): Result<seq<string>>
  {
    if a.Err? then a else Prepend(a.value, b)
  }

  /** The codes one chunk contributes. */
  function ChunkCodes(chunk: string, prefixes: map<char, string>): Result<seq<string>>
  {
    match DecodeChunk(chunk, prefixes)
    case Err(e) => Err(e)
    case Ok(None) => Ok([])
    case Ok(Some(code)) => Ok([code])
  }

  /** Decoding takes the first chunk, then the rest. */
  lemma TroubleCodesUnfold(data: string, prefixes: map<char, string>)
    requires data != []
    ensures TroubleCodes(data, prefixes)
            == AndThen(ChunkCodes(Chunk(data), prefixes), TroubleCodes(data[|Chunk(data)|..], prefixes))
  {
    var rest := TroubleCodes(data[|Chunk(data)|..], prefixes);
    if rest.Ok? {
      assert [] + rest.value == rest.value;
    }
  }

  /** Running three stretches in order does not depend on how they are grouped. */
  lemma AndThenAssociative(x: Result<seq<string>>, y: Result<seq<string>>, z: Result<seq<string>>)
    ensures AndThen(x, AndThen(y, z)) == AndThen(AndThen(x, y), z)
  {
    if x.Ok? && y.Ok? && z.Ok? {
      assert x.value + (y.value + z.value) == (x.value + y.value) + z.value;
    }
  }

  /** Decoding works chunk by chunk from the left: cutting the data at a chunk boundary
      decodes each side on its own, keeping their order. */
  lemma {:induction false} TroubleCodesAppend(a: string, b: string, prefixes: map<char, string>)
    requires |a| % CodeWidth == 0
    ensures TroubleCodes(a + b, prefixes) == AndThen(TroubleCodes(a, prefixes), TroubleCodes(b, prefixes))
    decreases |a|
  {
    if a == [] {
      assert a + b == b;
      assert TroubleCodes(a, prefixes) == Ok([]);
      match TroubleCodes(b, prefixes)
      case Ok(more) => assert [] + more == more;
      case Err(_) =>
    } else {
      var ab := a + b;
      var chunk := Chunk(a);
      var head := ChunkCodes(chunk, prefixes);
      assert Chunk(ab) == chunk;
      assert ab[|chunk|..] == a[CodeWidth..] + b;
      calc {
        TroubleCodes(ab, prefixes);
        { TroubleCodesUnfold(ab, prefixes); }
        AndThen(head, TroubleCodes(a[CodeWidth..] + b, prefixes));
        { TroubleCodesAppend(a[CodeWidth..], b, prefixes); }
        AndThen(head, AndThen(TroubleCodes(a[CodeWidth..], prefixes), TroubleCodes(b, prefixes)));
        { AndThenAssociative(head, TroubleCodes(a[CodeWidth..], prefixes), TroubleCodes(b, prefixes)); }
        AndThen(AndThen(head, TroubleCodes(a[CodeWidth..], prefixes)), TroubleCodes(b, prefixes));
        { TroubleCodesUnfold(a, prefixes); }
        AndThen(TroubleCodes(a, prefixes), TroubleCodes(b, prefixes));
      }
    }
  }

  /** Zero padding decodes to no codes at all, whatever its length. */
  lemma {:induction false} ZeroPaddingDecodesToNothing(zeros: string, prefixes: map<char, string>)
    requires forall i :: 0 <= i < |zeros| ==> zeros[i] == '0'
    ensures TroubleCodes(zeros, prefixes) == Ok([])
    decreases |zeros|
  {
    if zeros != [] {
      var chunk := Chunk(zeros);
      DigitsValueZero(chunk);
      ZeroPaddingDecodesToNothing(zeros[|chunk|..], prefixes);
    }
  }

  /** A four-digit chunk the decoder turns into a code. */
  predicate IsCodeToken(token: string, prefixes: map<char, string>)
  {
    |token| == CodeWidth && AllDigits(token) && DigitsValue(token) != 0 && token[0] in prefixes
  }

  /** The code a code token becomes. */
  function Rendered(token: string, prefixes: map<char, string>): string
    requires IsCodeToken(token, prefixes)
  {
    prefixes[token[0]] + token[1..]
  }

  /** Decoding `n` real code tokens followed by zero padding gives exactly `n` codes,
      in the order of the tokens. */
  lemma {:induction false} TokensThenPaddingDecode(tokens: seq<string>, zeros: string, prefixes: map<char, string>)
    requires forall i :: 0 <= i < |tokens| ==> IsCodeToken(tokens[i], prefixes)
    requires forall i :: 0 <= i < |zeros| ==> zeros[i] == '0'
    ensures TroubleCodes(Concat(tokens) + zeros, prefixes).Ok?
    ensures |TroubleCodes(Concat(tokens) + zeros, prefixes).value| == |tokens|
    ensures forall i :: 0 <= i < |tokens| ==>
      TroubleCodes(Concat(tokens) + zeros, prefixes).value[i] == Rendered(tokens[i], prefixes)
  {
    if tokens == [] {
      assert Concat(tokens) + zeros == zeros;
      ZeroPaddingDecodesToNothing(zeros, prefixes);
    } else {
      var t := tokens[0];
      TokensThenPaddingDecode(tokens[1..], zeros, prefixes);
      assert Concat(tokens) + zeros == t + (Concat(tokens[1..]) + zeros);
      TroubleCodesAppend(t, Concat(tokens[1..]) + zeros, prefixes);
      assert t[CodeWidth..] == [];
      assert Chunk(t) == t;
    }
  }

  /** A chunk that fails to decode (not a decimal number, say a chunk holding a hex
      letter, or a nonzero chunk whose first character the prefix table lacks) makes the
      whole decoding fail with its failure once everything before it decoded. */
  lemma BadChunkFails(before: string, chunk: string, after: string, prefixes: map<char, string>)
    requires |before| % CodeWidth == 0 && TroubleCodes(before, prefixes).Ok?
    requires chunk != [] && (|chunk| == CodeWidth || (|chunk| < CodeWidth && after == []))
    requires DecodeChunk(chunk, prefixes).Err?
    ensures TroubleCodes(before + chunk + after, prefixes) == Err(DecodeChunk(chunk, prefixes).error)
  {
    TroubleCodesAppend(before, chunk + after, prefixes);
    assert before + chunk + after == before + (chunk + after);
    assert Chunk(chunk + after) == chunk;
  }

  /** A chunk holding a letter is not a decimal number. */
  lemma LetterChunkIsNotDecimal(chunk: string, i: nat, prefixes: map<char, string>)
    requires i < |chunk| && !IsDigit(chunk[i])
    ensures DecodeChunk(chunk, prefixes) == Err(NotDecimal(chunk))
  {
  }

  // ---------------------------------------------------------------------------
  // Report

  /** The description printed for `code`: its table entry, or the placeholder. Either
      way it is a single line when the table's entries are. */
  function Description(code: string, descriptions: map<string, string>): (d: string)
    ensures (forall c :: c in descriptions ==> '\n' !in descriptions[c]) ==> '\n' !in d
  {
    if code in descriptions then descriptions[code] else Placeholder
  }

  /** The report line for one code, without its newline. */
  function Line(code: string, descriptions: map<string, string>): string
  {
    code + " : " + Description(code, descriptions)
  }

  /** A line built from a code and descriptions without line ends is one line. */
  lemma LineHasNoNewline(code: string, descriptions: map<string, string>)
    requires '\n' !in code
    requires forall c :: c in descriptions ==> '\n' !in descriptions[c]
    ensures '\n' !in Line(code, descriptions)
  {
  }

  /** The text `get_trouble_code_data` builds from `codes`. */
  function Report(codes: seq<string>, descriptions: map<string, string>): (report: string)
    ensures report == "" <==> codes == []
  {
    if codes == [] then [] else Line(codes[0], descriptions) + "\n" + Report(codes[1..], descriptions)
  }

  /** The report of two lists of codes is the two reports one after the other. */
  lemma {:induction false} ReportAppend(a: seq<string>, b: seq<string>, descriptions: map<string, string>)
    ensures Report(a + b, descriptions) == Report(a, descriptions) + Report(b, descriptions)
  {
    if a != [] {
      var head := Line(a[0], descriptions) + "\n";
      assert (a + b)[0] == a[0];
      assert (a + b)[1..] == a[1..] + b;
      calc {
        Report(a + b, descriptions);
        head + Report(a[1..] + b, descriptions);
        { ReportAppend(a[1..], b, descriptions); }
        head + (Report(a[1..], descriptions) + Report(b, descriptions));
        (head + Report(a[1..], descriptions)) + Report(b, descriptions);
      }
    } else {
      assert a + b == b;
    }
  }

  /** Reading the report back line by line gives one line per code, in order, each
      `code : description` (or the placeholder), and nothing after the last newline. */
  lemma {:induction false} ReportLines(codes: seq<string>, descriptions: map<string, string>)
    requires forall i :: 0 <= i < |codes| ==> '\n' !in codes[i]
    requires forall code :: code in descriptions ==> '\n' !in descriptions[code]
    ensures |Split(Report(codes, descriptions), '\n')| == |codes| + 1
    ensures Split(Report(codes, descriptions), '\n')[|codes|] == ""
    ensures forall i :: 0 <= i < |codes| ==>
      Split(Report(codes, descriptions), '\n')[i] == codes[i] + " : " + Description(codes[i], descriptions)
  {
    if codes == [] {
      assert Split("", '\n') == [""];
    } else {
      ReportLines(codes[1..], descriptions);
      LineHasNoNewline(codes[0], descriptions);
      SplitAfterPiece(Line(codes[0], descriptions), Report(codes[1..], descriptions), '\n');
    }
  }

  /** The report from position `i` on starts with the line for `codes[i]`. */
  lemma ReportFrom(codes: seq<string>, i: nat, descriptions: map<string, string>)
    requires i < |codes|
    ensures Report(codes[i..], descriptions) == Line(codes[i], descriptions) + "\n" + Report(codes[i + 1..], descriptions)
  {
    assert codes[i..][1..] == codes[i + 1..];
  }

  /** The two ways the script writes an entry are the line for the code. */
  lemma EntryIsLine(code: string, descriptions: map<string, string>)
    ensures code in descriptions ==> code + " : " + descriptions[code] + "\n" == Line(code, descriptions) + "\n"
    ensures code !in descriptions ==> code + " : [DESCRIPTION NOT FOUND] \n" == Line(code, descriptions) + "\n"
  {
  }

  /** `get_trouble_code_data`'s loop over the codes. */
  method TroubleCodeReport(codes: seq<string>, descriptions: map<string, string>) returns (report: string)
    ensures report == Report(codes, descriptions)
    ensures report == "" <==> codes == []
  {
    report := "";
    for i := 0 to |codes|
      invariant report + Report(codes[i..], descriptions) == Report(codes, descriptions)
    {
      var code := codes[i];
      var entry := code;
      if code in descriptions {
        entry := entry + " : " + descriptions[code] + "\n";
      } else {
        entry := entry + " : [DESCRIPTION NOT FOUND] \n";
      }
      EntryIsLine(code, descriptions);
      ReportFrom(codes, i, descriptions);
      report := report + entry;
    }
    assert codes[|codes|..] == [];
  }

  /** What `get_trouble_code_data` returns for the adapter's normalised reply. */
  function TroubleCodeData(response: string, prefixes: map<char, string>, descriptions: map<string, string>): Result<string>
  {
    match TroubleCodes(Pruned(response, 1), prefixes)
    case Err(e) => Err(e)
    case Ok(codes) => Ok(Report(codes, descriptions))
  }

  /** `get_trouble_code_data(ELM327, OBDIImode)`: one request, its reply pruned of one
      byte per line, tokenized and reported. */
  method GetTroubleCodeData(ch: Channel, mode: string, prefixes: map<char, string>, descriptions: map<string, string>)
    returns (result: Result<string>)
    requires ch.open
    modifies ch
    ensures ch.open
    ensures ch.trace == old(ch.trace) + [Sent(mode + "\r")] + Receipts(old(ch.input))
    ensures Commands(ch.trace) == Commands(old(ch.trace)) + [mode + "\r"]
    ensures ch.input == Rest(old(ch.input))
    ensures result == TroubleCodeData(Response(old(ch.input)), prefixes, descriptions)
  {
    var response := GetResponse(ch, mode + "\r");
    response := PruneData(response, 1);
    var codes := DataToTroubleCodes(response, prefixes);
    if codes.Err? {
      return Err(codes.error);
    }
    var report := TroubleCodeReport(codes.value, descriptions);
    return Ok(report);
  }
}
