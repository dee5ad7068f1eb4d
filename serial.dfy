/** The serial link to the ELM327 adapter. The port itself (device name, baud rate,
    timeouts) is outside the model: a channel is the text the adapter will send, consumed
    one character per read, and the trace of everything written and read so far. */
module Serial {
  import opened Failures

  /** One interaction on the wire, in the order it happened. */
  datatype Event =
    | Sent(data: string)     // one `write` of a whole command
    | Received(c: char)      // one `read` that delivered a character
    | TimedOut               // one `read` that found nothing to deliver

  /** The commands written, in order, ignoring the reads between them. */
  function Commands(trace: seq<Event>): (commands: seq<string>)
    ensures |commands| <= |trace|
  {
    if trace == [] then []
    else (if trace[0].Sent? then [trace[0].data] else []) + Commands(trace[1..])
  }

  /** The command log of two stretches of a trace is the two logs one after the other. */
  lemma {:induction false} CommandsAppend(a: seq<Event>, b: seq<Event>)
    ensures Commands(a + b) == Commands(a) + Commands(b)
  {
    if a != [] {
      CommandsAppend(a[1..], b);
      assert (a + b)[1..] == a[1..] + b;
    } else {
      assert a + b == b;
    }
  }

  class Channel {
    /** What the adapter has still to send. */
    var input: string
    /** Every write and read so far. */
    var trace: seq<Event>
    /** False once the port has been closed. */
    var open: bool

    constructor (adapterOutput: string)
      ensures input == adapterOutput && trace == [] && open
    {
      input := adapterOutput;
      trace := [];
      open := true;
    }

    /** `serial_con.write(data)`. */
    method Write(data: string)
      requires open
      modifies this
      ensures open && input == old(input)
      ensures trace == old(trace) + [Sent(data)]
    {
      trace := trace + [Sent(data)];
    }

    /** `serial_con.read()`: the next character, or nothing when the adapter has gone quiet. */
    method Read() returns (c: Option<char>)
      requires open
      modifies this
      ensures open
      ensures old(input) == [] ==> c == None && input == [] && trace == old(trace) + [TimedOut]
      ensures old(input) != [] ==>
        c == Some(old(input)[0]) && input == old(input)[1..] && trace == old(trace) + [Received(old(input)[0])]
    {
      if input == [] {
        c := None;
        trace := trace + [TimedOut];
      } else {
        c := Some(input[0]);
        trace := trace + [Received(input[0])];
        input := input[1..];
      }
    }

    /** `serial_con.close()`. */
    method Close()
      modifies this
      ensures !open && input == old(input) && trace == old(trace)
    {
      open := false;
    }
  }
}
