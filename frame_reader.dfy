/** The frame reader (`get_response`, reader.py:14-22): write one command, read the
    adapter's reply up to its `>` prompt, and normalise the line ends. */
module FrameReader {
  import opened Failures
  import opened Text
  import opened Serial

  /** The ELM327's prompt, which ends every reply. */
  const Prompt := '>'

  /** The characters the reader keeps: everything before the first prompt, or all of
      `input` when no prompt comes before the adapter goes quiet. */
  function Frame(input: string): (frame: string)
    ensures frame <= input
  {
    if input == [] || input[0] == Prompt then [] else [input[0]] + Frame(input[1..])
  }

  /** What is left for the next command: everything after the first prompt. */
  function Rest(input: string): (rest: string)
    ensures input != [] ==> |rest| < |input|
  {
    if input == [] then []
    else if input[0] == Prompt then input[1..]
    else Rest(input[1..])
  }

  /** The reads one frame takes, as trace events: one per kept character, then the
      prompt, or a timed-out read when the input runs out first. */
  function Receipts(input: string): seq<Event>
  {
    if input == [] then [TimedOut]
    else [Received(input[0])] + (if input[0] == Prompt then [] else Receipts(input[1..]))
  }

  /** The input after `n` whole frames have been read. */
  function After(input: string, n: nat): string
  {
    if n == 0 then input else Rest(After(input, n - 1))
  }

  /** Reading one frame and then `n` more is reading `n + 1` frames. */
  lemma {:induction false} AfterRest(input: string, n: nat)
    ensures After(Rest(input), n) == After(input, n + 1)
  {
    if n > 0 {
      AfterRest(input, n - 1);
    }
  }

  /** The reply the `i`-th command gets, counting from 0. */
  function ResponseAt(input: string, i: nat): string
  {
    Response(After(input, i))
  }

  /** The `i`-th reply after the first is the `i + 1`-th reply of the whole input. */
  lemma ResponseAtRest(input: string, i: nat)
    ensures ResponseAt(Rest(input), i) == ResponseAt(input, i + 1)
  {
    AfterRest(input, i);
  }

  /** A frame never holds the prompt, and frame, prompt and rest put back together are
      the input. */
  lemma {:induction false} FrameSplitsInput(input: string)
    ensures Prompt !in Frame(input)
    ensures Prompt in input ==> input == Frame(input) + [Prompt] + Rest(input)
    ensures Prompt !in input ==> Frame(input) == input && Rest(input) == []
  {
    if input != [] && input[0] != Prompt {
      FrameSplitsInput(input[1..]);
      assert input == [input[0]] + input[1..];
    } else if input != [] {
      assert input == [] + [Prompt] + input[1..];
    }
  }

  /** The reads of one frame write nothing, and they deliver exactly the kept
      characters followed by the prompt (or a timeout). */
  lemma {:induction false} ReceiptsOfFrame(input: string)
    ensures Commands(Receipts(input)) == []
    ensures |Receipts(input)| == |Frame(input)| + 1
    ensures forall i :: 0 <= i < |Frame(input)| ==> Receipts(input)[i] == Received(Frame(input)[i])
    ensures Receipts(input)[|Frame(input)|] == if Prompt in input then Received(Prompt) else TimedOut
  {
    if input != [] && input[0] != Prompt {
      ReceiptsOfFrame(input[1..]);
      CommandsAppend([Received(input[0])], Receipts(input[1..]));
    }
  }

  /** `s.replace('\r', '\n')`. */
  function CarriageToNewline(s: string): (r: string)
    ensures |r| == |s|
    ensures '\r' !in r
  {
    if s == [] then [] else [if s[0] == '\r' then '\n' else s[0]] + CarriageToNewline(s[1..])
  }

  /** Each carriage return becomes a newline; every other character stays where it is. */
  lemma {:induction false} CarriageToNewlineAt(s: string, i: nat)
    requires i < |s|
    ensures CarriageToNewline(s)[i] == if s[i] == '\r' then '\n' else s[i]
  {
    if i > 0 {
      CarriageToNewlineAt(s[1..], i - 1);
    }
  }

  /** `s.replace('\n\n', '\n')`: one left-to-right pass over non-overlapping pairs. */
  function CollapseNewlinePairs(s: string): (r: string)
    decreases |s|
    ensures |r| <= |s|
  {
    if |s| >= 2 && s[0] == '\n' && s[1] == '\n' then ['\n'] + CollapseNewlinePairs(s[2..])
    else if s == [] then []
    else [s[0]] + CollapseNewlinePairs(s[1..])
  }

  /** Collapsing pairs keeps every character, and drops only some of the newlines. */
  lemma {:induction false} CollapseKeepsChars(s: string, c: char)
    ensures c != '\n' ==> (c in CollapseNewlinePairs(s) <==> c in s)
    ensures '\n' in CollapseNewlinePairs(s) <==> '\n' in s
    decreases |s|
  {
    if |s| >= 2 && s[0] == '\n' && s[1] == '\n' {
      CollapseKeepsChars(s[2..], c);
      assert s == ['\n', '\n'] + s[2..];
    } else if s != [] {
      CollapseKeepsChars(s[1..], c);
      assert s == [s[0]] + s[1..];
    }
  }

  /** The normalisation `get_response` applies to what it read. */
  function Normalize(s: string): (r: string)
    ensures |r| <= |s|
  {
    CollapseNewlinePairs(CarriageToNewline(s))
  }

  /** The text `get_response` returns when the adapter's output is `input`. */
  function Response(input: string): string
  {
    Normalize(Frame(input))
  }

  /** Normalisation removes every carriage return and keeps every other character
      apart from line ends. */
  lemma NormalizeChars(s: string)
    ensures '\r' !in Normalize(s)
    ensures '\n' in Normalize(s) <==> '\n' in s || '\r' in s
    ensures forall c :: c != '\r' && c != '\n' ==> (c in Normalize(s) <==> c in s)
  {
    var t := CarriageToNewline(s);
    forall i | 0 <= i < |s|
      ensures t[i] == if s[i] == '\r' then '\n' else s[i]
    {
      CarriageToNewlineAt(s, i);
    }
    assert forall c :: c != '\r' && c != '\n' ==> (c in t <==> c in s) by {
      forall c | c != '\r' && c != '\n'
        ensures c in t <==> c in s
      {
        if c in s { var i :| 0 <= i < |s| && s[i] == c; assert t[i] == c; }
        if c in t { var i :| 0 <= i < |t| && t[i] == c; assert s[i] == c; }
      }
    }
    assert '\r' !in t;
    CollapseKeepsChars(t, '\r');
    forall c | c != '\r' && c != '\n'
      ensures c in Normalize(s) <==> c in s
    {
      CollapseKeepsChars(t, c);
    }
    if '\n' in s { var i :| 0 <= i < |s| && s[i] == '\n'; assert t[i] == '\n'; }
    if '\r' in s { var i :| 0 <= i < |s| && s[i] == '\r'; assert t[i] == '\n'; }
  }

  /** The returned text never holds the prompt or a carriage return. */
  lemma ResponseHasNoPromptOrCarriageReturn(input: string)
    ensures Prompt !in Response(input)
    ensures '\r' !in Response(input)
  {
    FrameSplitsInput(input);
    NormalizeChars(Frame(input));
  }

  /** Two more leading newlines add one newline to the collapsed run. */
  lemma CollapsePair(m: nat, t: string)
    requires CollapseNewlinePairs(Repeat('\n', m) + t) == Repeat('\n', (m + 1) / 2) + CollapseNewlinePairs(t)
    ensures CollapseNewlinePairs(Repeat('\n', m + 2) + t) == Repeat('\n', (m + 3) / 2) + CollapseNewlinePairs(t)
  {
    var rest := Repeat('\n', m) + t;
    var s := Repeat('\n', m + 2) + t;
    var half := (m + 1) / 2;
    PairPrefix(m, t);
    assert s[2..] == rest;
    calc {
      CollapseNewlinePairs(s);
      ['\n'] + CollapseNewlinePairs(rest);
      ['\n'] + (Repeat('\n', half) + CollapseNewlinePairs(t));
      (['\n'] + Repeat('\n', half)) + CollapseNewlinePairs(t);
      { RepeatCons('\n', half); }
      Repeat('\n', half + 1) + CollapseNewlinePairs(t);
    }
    assert (m + 3) / 2 == half + 1;
  }

  /** A run of at least two newlines starts with two newlines. */
  lemma PairPrefix(m: nat, t: string)
    ensures Repeat('\n', m + 2) + t == ['\n', '\n'] + (Repeat('\n', m) + t)
  {
    RepeatCons('\n', m + 1);
    RepeatCons('\n', m);
  }

  /** A lone newline is kept. */
  lemma CollapseSingle(t: string)
    requires t == [] || t[0] != '\n'
    ensures CollapseNewlinePairs(Repeat('\n', 1) + t) == ['\n'] + CollapseNewlinePairs(t)
  {
    RepeatCons('\n', 0);
    var s := Repeat('\n', 1) + t;
    assert s == ['\n'] + t;
    assert s[1..] == t;
  }

  /** A maximal run of `n` newlines becomes ceil(n/2) newlines. */
  lemma {:induction false} CollapseRun(n: nat, t: string)
    requires t == [] || t[0] != '\n'
    ensures CollapseNewlinePairs(Repeat('\n', n) + t) == Repeat('\n', (n + 1) / 2) + CollapseNewlinePairs(t)
  {
    if n >= 2 {
      CollapseRun(n - 2, t);
      CollapsePair(n - 2, t);
    } else if n == 1 {
      CollapseSingle(t);
    } else {
      assert Repeat('\n', n) + t == t;
    }
  }

  /** A character other than a line end is copied through unchanged. */
  lemma NormalizeKeepsText(c: char, t: string)
    requires c != '\r' && c != '\n'
    ensures Normalize([c] + t) == [c] + Normalize(t)
  {
  }

  /** A run of line-end characters turns into as many newlines. */
  lemma {:induction false} CarriageRun(run: string, t: string)
    requires forall i :: 0 <= i < |run| ==> run[i] == '\r' || run[i] == '\n'
    ensures CarriageToNewline(run + t) == Repeat('\n', |run|) + CarriageToNewline(t)
  {
    if run != [] {
      CarriageRun(run[1..], t);
      var s := run + t;
      assert s[0] == run[0];
      assert s[1..] == run[1..] + t;
      assert CarriageToNewline(s) == ['\n'] + CarriageToNewline(run[1..] + t);
      RepeatCons('\n', |run| - 1);
    } else {
      assert run + t == t;
    }
  }

  /** A run of `n` line-end characters (carriage returns and newlines mixed) becomes
      ceil(n/2) newlines. */
  lemma NormalizeRun(run: string, t: string)
    requires forall i :: 0 <= i < |run| ==> run[i] == '\r' || run[i] == '\n'
    requires t == [] || (t[0] != '\r' && t[0] != '\n')
    ensures Normalize(run + t) == Repeat('\n', (|run| + 1) / 2) + Normalize(t)
  {
    var u := CarriageToNewline(t);
    CarriageRun(run, t);
    assert u == [] || u[0] != '\n';
    CollapseRun(|run|, u);
  }

  /** Runs of three or more line ends still leave a blank line behind. */
  lemma ThreeLineEndsLeaveTwo()
    ensures Normalize("\r\r\r") == "\n\n"
  {
  }

  /** The receipts still to come after a trace, one read at a time. */
  lemma ReceiptsOfRead(t: seq<Event>, input: string)
    ensures input == [] ==> t + Receipts(input) == t + [TimedOut]
    ensures input != [] && input[0] == Prompt ==> t + Receipts(input) == t + [Received(Prompt)]
    ensures input != [] && input[0] != Prompt ==>
      t + Receipts(input) == (t + [Received(input[0])]) + Receipts(input[1..])
  {
    if input != [] && input[0] != Prompt {
      assert Receipts(input) == [Received(input[0])] + Receipts(input[1..]);
    }
  }

  /** The read loop of `get_response`: reads up to the prompt, keeping every character
      before it. When the adapter goes quiet first, the read stops there. */
  method ReadFrame(ch: Channel) returns (frame: string)
    requires ch.open
    modifies ch
    ensures ch.open
    ensures frame == Frame(old(ch.input))
    ensures ch.input == Rest(old(ch.input))
    ensures ch.trace == old(ch.trace) + Receipts(old(ch.input))
  {
    ghost var input := ch.input;
    ghost var start := ch.trace;
    frame := "";
    var done := false;
    while !done
      invariant ch.open
      invariant !done ==> frame + Frame(ch.input) == Frame(input)
      invariant !done ==> Rest(ch.input) == Rest(input)
      invariant !done ==> ch.trace + Receipts(ch.input) == start + Receipts(input)
      invariant done ==> frame == Frame(input) && ch.input == Rest(input)
      invariant done ==> ch.trace == start + Receipts(input)
      decreases |ch.input| + (if done then 0 else 1)
    {
      ReceiptsOfRead(ch.trace, ch.input);
      var c := ch.Read();
      match c
      case None =>
        done := true;
      case Some(x) =>
        if x == Prompt {
          done := true;
        } else {
          frame := frame + [x];
        }
    }
  }

  /** `get_response(serial_con, data)`: writes `command` once, reads one frame and
      normalises its line ends. */
  method GetResponse(ch: Channel, command: string) returns (response: string)
    requires ch.open
    modifies ch
    ensures ch.open
    ensures ch.trace == old(ch.trace) + [Sent(command)] + Receipts(old(ch.input))
    ensures Commands(ch.trace) == Commands(old(ch.trace)) + [command]
    ensures ch.input == Rest(old(ch.input))
    ensures response == Response(old(ch.input))
    ensures Prompt !in response && '\r' !in response
  {
    ghost var input := ch.input;
    ch.Write(command);
    ghost var written := ch.trace;
    var frame := ReadFrame(ch);
    response := Normalize(frame);
    CommandsAppend(old(ch.trace), [Sent(command)]);
    CommandsAppend(written, Receipts(input));
    ReceiptsOfFrame(input);
    ResponseHasNoPromptOrCarriageReturn(input);
  }
}
