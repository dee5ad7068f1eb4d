# OBDreader in Dafny

A model of `reader.py`, the OBDreader script that drives an ELM327 OBD-II adapter over
a serial port, with proofs about it. The script does the following, and the model
follows the same steps:

1. It sends eight `AT` set-up commands. For four of them it compares the reply with an
   exact literal.
2. It probes the vehicle bus with `0100` up to five times, until the reply stops saying
   `UNABLE TO CONNECT`. If the bus never answers, it closes the port and quits.
3. It asks for the protocol (`AT DP`) and the VIN (`0902`).
4. It reads the stored (`03`) and pending (`07`) trouble codes. Each of these goes
   through the same pipeline:
   - `get_response` reads the reply up to the `>` prompt and normalises its line ends;
   - `prune_data` drops the first bytes of every line;
   - `data_to_trouble_codes` turns the remaining digits into codes, four characters at
     a time;
   - `get_trouble_code_data` formats one `code : description` line per code.

The modules, one per file:

- `Failures`: the ways a decoding step raises (`int()` on a non-decimal chunk, a
  missing prefix key, bad hex), plus `Result` and `Option`.
- `Text`:
  - `str.split` and `str.join` on a single character;
  - `str.find(...) != -1`;
  - `str.replace(c, '')`.
- `Serial`: the serial port as a `Channel` object.
  - `input` is the text the adapter will send.
  - `trace` is every write and read, in order.
  - `open` becomes false when the port is closed.
  - `Read` takes one character; on empty input it is a timed-out read.
- `FrameReader`: `get_response`.
  - Pure stream functions say what one call reads (`Frame`), what it leaves (`Rest`)
    and what it returns (`Response`).
  - The loop method `ReadFrame` and the method `GetResponse` are proved against those
    functions.
- `TroubleCodeDecoder`: `prune_data`, `data_to_trouble_codes` and
  `get_trouble_code_data`.
  - `PruneData` and `DataToTroubleCodes` are the loops of the first two, proved equal
    to the functions `Pruned` and `TroubleCodes`.
  - `get_trouble_code_data` is the method `GetTroubleCodeData`. It sends the request,
    then prunes, decodes and formats the reply. Its formatting loop is
    `TroubleCodeReport`, proved equal to `Report`.
  - The two lookup tables imported by the script are the parameters
    `prefixes: map<char, string>` and `descriptions: map<string, string>`.
- `Vin`: `bytearray.fromhex` and the null-to-space replacement. Bytes are a `byte`
  newtype.
- `Session`: the top level of the script.
  - The set-up checks, the retry loop and the report steps are each a method on the
    channel.
  - `Run` strings them together and is proved equal to `Expected`, a function of the
    adapter's whole output.

Three behaviours of the code are easy to misread:

- **Decimal, not hex.** `data_to_trouble_codes` calls `int(code)` (reader.py:35), which
  parses decimal. A chunk holding a hex letter (`C100`) raises; it is not a code.
- **Blank lines can survive.** The comment at reader.py:22 says the line
  "removes blank spaces and blank lines". But `replace('\n\n', '\n')` is a single
  left-to-right pass, so three or more line ends in a row still leave a blank line
  (`ThreeLineEndsLeaveTwo`). Spaces are not removed at all.
- **Every nonzero chunk becomes a code, or fails the call.** The loop at
  reader.py:33-37 turns each four-character chunk whose value is not zero into a code.
  When the chunk's first character is not a key of the prefix table, reader.py:36
  raises instead (`BadChunkFails`). So if `4`, `0` and `7` are prefix keys, the reply
  `0143000301710000`, pruned of one byte, yields codes for the chunks `4300`, `0301` and
  `7100`. Without the key `4` it fails at `4300`.

## Model

| member | source | states |
|---|---|---|
| Text.Contains | reader.py:106 | `response.find(m) != -1` holds when `m` starts the text, and never when `m` is longer than the text |
| Text.ContainsIffOccurs | reader.py:106 | `response.find(m) != -1` holds exactly when `m` occurs at some position of `response` |
| Text.Split | reader.py:26 | splitting on `\n` gives at least one piece, and no piece holds a `\n` |
| Text.JoinSplit | reader.py:26 | joining the split pieces with the separator gives the text back |
| Text.SplitJoin | reader.py:26 | splitting undoes a join of pieces that hold no separator |
| Serial.Channel.constructor | reader.py:53-55 | a freshly opened port: nothing written or read, the adapter's whole output still to come |
| Serial.Channel.Write | reader.py:15 | a write appends exactly one `Sent` event and consumes nothing |
| Serial.Channel.Read | reader.py:19 | a read delivers and consumes the next character; on empty input it delivers nothing and records a timeout |
| Serial.Channel.Close | reader.py:125 | closing the port changes nothing but the open flag |
| Serial.CommandsAppend | reader.py:15 | the command log of a trace is additive over concatenation |
| FrameReader.Frame | reader.py:16-21 | the text one call keeps is a prefix of the input |
| FrameReader.Rest | reader.py:16-21 | a call on non-empty input consumes at least one character |
| FrameReader.FrameSplitsInput | reader.py:18-21 | the kept text never holds `>`; input = kept text + `>` + rest when a prompt comes, otherwise everything is kept |
| FrameReader.ReceiptsOfFrame | reader.py:18-21 | reading a frame writes nothing; it reads one event per kept character, in order, then the prompt (or a timeout) |
| FrameReader.ReadFrame | reader.py:16-21 | the loop keeps exactly the characters before the first `>`, consumes through that `>`, and records each read |
| FrameReader.GetResponse | reader.py:14-22 | the command is written exactly once, before any read; the reply is the normalised frame and holds neither `>` nor `\r`; the command log grows by exactly the command |
| FrameReader.CarriageToNewline | reader.py:22 | `replace('\r', '\n')` keeps the length and leaves no `\r` |
| FrameReader.CollapseNewlinePairs | reader.py:22 | `replace('\n\n', '\n')` never lengthens the text |
| FrameReader.Normalize | reader.py:22 | the two replacements together never lengthen the text |
| FrameReader.CarriageToNewlineAt | reader.py:22 | `replace('\r', '\n')` changes each `\r` to `\n` and keeps every other character in place |
| FrameReader.CollapseKeepsChars | reader.py:22 | `replace('\n\n', '\n')` keeps every other character and keeps some `\n` exactly when there was one |
| FrameReader.NormalizeChars | reader.py:22 | after normalising, no `\r` is left; a `\n` is present iff a line end was; every other character is kept |
| FrameReader.ResponseHasNoPromptOrCarriageReturn | reader.py:18-22 | the returned text holds neither `>` nor `\r` |
| FrameReader.CollapseRun | reader.py:22 | a maximal run of n newlines becomes ceil(n/2) newlines |
| FrameReader.CarriageRun | reader.py:22 | a run of mixed `\r`/`\n` becomes as many `\n` |
| FrameReader.NormalizeRun | reader.py:22 | a maximal run of n line-end characters becomes ceil(n/2) newlines |
| FrameReader.NormalizeKeepsText | reader.py:22 | a character other than a line end is copied through in place |
| FrameReader.ThreeLineEndsLeaveTwo | reader.py:22 | `\r\r\r` normalises to `\n\n`: a blank line can remain |
| TroubleCodeDecoder.Pruned | reader.py:24-29 | the pruned text holds no `\n` |
| TroubleCodeDecoder.PruneLinesHasNoNewline | reader.py:26-28 | pruned lines run together hold no `\n` |
| TroubleCodeDecoder.PrunedJoinedLines | reader.py:24-29 | pruning newline-joined lines gives each line minus its first 2k characters, in order; short lines add nothing |
| TroubleCodeDecoder.PruneNothing | reader.py:24-29 | `prune_data(s, 0)` is `s` with every `\n` removed |
| TroubleCodeDecoder.PruneData | reader.py:24-29 | the loop returns the in-order concatenation of `line[2k:]` over the split lines, and the result holds no `\n` |
| TroubleCodeDecoder.ParseDecimal | reader.py:35 | `int(code)` succeeds exactly on a non-empty string of decimal digits |
| TroubleCodeDecoder.DigitsValueZero | reader.py:35 | a digit string is worth zero exactly when all its digits are `0` |
| TroubleCodeDecoder.Chunk | reader.py:34 | `data[:4]` has at most four characters and is non-empty for non-empty data |
| TroubleCodeDecoder.DecodeChunk | reader.py:34-36 | a chunk produces no code exactly when it is a non-empty run of `0` digits |
| TroubleCodeDecoder.TroubleCodes | reader.py:31-38 | a successful decoding yields at most ceil(len(data)/4) codes |
| TroubleCodeDecoder.DataToTroubleCodes | reader.py:31-38 | the loop returns the codes of `TroubleCodes`, or the first failure it meets |
| TroubleCodeDecoder.TroubleCodesAppend | reader.py:33-37 | chunks are decoded left to right: data cut at a chunk boundary decodes as its two halves, in order, stopping at the first failure |
| TroubleCodeDecoder.ZeroPaddingDecodesToNothing | reader.py:35 | chunks worth zero produce no code, whatever the padding's length |
| TroubleCodeDecoder.TokensThenPaddingDecode | reader.py:31-38 | nonzero tokens followed by zero padding give one `prefix[token[0]] + token[1:]` per token, in input order |
| TroubleCodeDecoder.BadChunkFails | reader.py:35-36 | a non-decimal chunk, or a nonzero chunk with an unknown first character, fails the whole call with that failure |
| TroubleCodeDecoder.LetterChunkIsNotDecimal | reader.py:35 | a chunk holding any non-digit (a hex letter, say) fails as not decimal |
| TroubleCodeDecoder.Description | reader.py:47-50 | the looked-up description, or the placeholder for a missing key, holds no `\n` when no table entry does, so each entry stays one report line |
| TroubleCodeDecoder.Report | reader.py:45-50 | the report is empty exactly when there are no codes |
| TroubleCodeDecoder.ReportAppend | reader.py:45-50 | the report of two code lists is the two reports one after the other |
| TroubleCodeDecoder.ReportLines | reader.py:45-51 | split back on `\n`, the report gives `code : description` (or the placeholder) per code, in order, with nothing after the last newline |
| TroubleCodeDecoder.EntryIsLine | reader.py:46-50 | the two entry forms are `code : description\n` and `code : [DESCRIPTION NOT FOUND] \n` |
| TroubleCodeDecoder.TroubleCodeReport | reader.py:41-51 | the loop returns `Report(codes)`; the report is empty exactly when there are no codes |
| TroubleCodeDecoder.GetTroubleCodeData | reader.py:40-51 | one request `mode + "\r"`; its reply pruned of one byte per line, decoded and reported, or the decoding failure |
| Vin.VinFromHex | reader.py:135 | the VIN step succeeds exactly when `fromhex` does; the VIN then has half as many bytes as digits and no null byte |
| Vin.FromHex | reader.py:135 | decoded hex has half as many bytes as the text has digits |
| Vin.FromHexAccepts | reader.py:135 | `fromhex` accepts exactly an even number of hex digits |
| Vin.FromHexAt | reader.py:135 | byte i is hex digits 2i and 2i+1, high digit first |
| Vin.FromHexToHex | reader.py:135 | decoding the hex text of some bytes gives those bytes back |
| Vin.ReplaceNulls | reader.py:135 | each `0x00` becomes `0x20`, every other byte is unchanged, the length is kept |
| Vin.VinBytes | reader.py:134-135 | for valid hex, the VIN has half as many bytes as digits, holds no null, and each byte is its digit pair or a space for a null pair |
| Vin.VinRejectsBadHex | reader.py:135 | an odd-length or non-hex reply fails with the hex error |
| Vin.NotHexIsTheOnlyFailure | reader.py:135 | hex decoding fails in one way only |
| Vin.NullRunBecomesSpaces | reader.py:135 | nulls between the parts of a VIN come out as spaces with the parts kept |
| Session.SetupOf | reader.py:58-89 | each checked step succeeds iff its reply equals the exact literal; the printed reset and voltage replies hold neither `>` nor `\r` |
| Session.OkReplyAccepted | reader.py:71-89 | `OK` followed by k line ends passes the exact `'OK\n'` check iff k is 1 or 2 |
| Session.Configure | reader.py:58-100 | eight set-up commands, in order; each checked step succeeds iff its reply equals the exact literal, and every step runs either way |
| Session.Probes | reader.py:104-126 | the loop sends at most the budget of probes, and at least one when the budget is positive |
| Session.Connects | reader.py:104-126 | connecting needs a positive budget; a first reply without `UNABLE TO CONNECT` connects |
| Session.ProbesStopAtFirstAnswer | reader.py:104-126 | between 1 and the budget of probes; every probe before the last said `UNABLE TO CONNECT`; the last decides the outcome; a failed connection used every try |
| Session.ConnectAfterFailures | reader.py:104-126 | with f failing probes first, the loop sends min(f+1, budget) probes and connects iff f < budget |
| Session.Probe | reader.py:118 | one try sends exactly the `0100` command and returns the next reply, consuming it |
| Session.Connect | reader.py:104-120 | the loop sends `Probes` probes and only probes, ends connected iff `Connects`, and waits the settle period once per probe |
| Session.ReadVin | reader.py:133-135 | one `0902` request; its reply pruned of three bytes per line and decoded as the VIN |
| Session.ReadReports | reader.py:139-149 | the stored then the pending report; a decoding failure stops there with the port open; otherwise the port is closed |
| Session.Diagnose | reader.py:129-149 | protocol, VIN and the two reports, in order, stopping at the first failure; exactly the commands those steps send |
| Session.Expected | reader.py:58-149 | the script sends between 1 and 5 probes; a failed connection sent all 5; the set-up flags are those of `SetupOf` |
| Session.Run | reader.py:58-149 | the whole script equals `Expected`; a failed connection closes the port and sends nothing after the probes; after a connection the port ends closed exactly when no decoding step failed |

## Left out

- Serial port set-up (reader.py:53-56): the device name, baud rate and timeouts are
  library settings. The channel starts with the adapter's whole output as its input.
- FrameReader.GetResponse: stops reading when the input runs out, recording a timed-out
  read. In the script, `read_char != 0` compares bytes with an int and never fires. A
  timed-out read returns `b''` and the loop keeps reading, so it only ends at a `>`. The
  model does not claim the script terminates on a timeout.
- Console output (`print`, `sys.stdout.write`) and the countdown with `time.sleep`
  (reader.py:109-116). The countdown is kept only as the ghost count `waited` of settle
  seconds.
- `quit()` (reader.py:126) is modelled as `Run` returning `Disconnected`.
- UTF-8 decoding is not modelled, nor its two error paths. Characters are taken as
  delivered, and the VIN is kept as bytes. In both cases below the script raises while
  the model returns a result:
  - `str(read_char, 'utf=8')` (reader.py:21) raises on any byte of 0x80 or above.
  - `str(..., 'UTF-8')` (reader.py:135) raises on a VIN payload that is not valid
    UTF-8, for example the hex `FF`.
- TroubleCodeDecoder.ParseDecimal: accepts only ASCII digits. Python's `int()` also
  accepts surrounding whitespace, `_` separators, a sign and other Unicode digits.
- Vin.FromHex: does not skip whitespace between byte pairs, which `bytearray.fromhex`
  allows.
- The contents of `trouble_code_prefix` and `trouble_code_descriptions` (reader.py:4-5):
  the modules `error_codes_prefix` and `ISO_OBD_error_codes` are not part of this model.
  They are taken as arbitrary maps.
- A script that raises stops with the port still open; the model records where it
  stopped (`Crashed`), not the Python traceback.
- Session.Connect: takes the try budget as a parameter, and `Run` passes the script's
  literal 5.
