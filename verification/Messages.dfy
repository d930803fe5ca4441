/** va_errorMessage and va_infoMessage, which share one shape: format into a stack
    buffer, and once more into a heap buffer when the text did not fit. */
module Messages {
  import opened CStrings
  import opened CRuntime

  const STACK_SIZE: nat := 512

  /** One of the two callbacks of a display: installed or null, with the texts it received. */
  class Channel {
    var installed: bool
    var received: seq<string>
    constructor (present: bool)
      ensures installed == present && received == []
    {
      installed, received := present, [];
    }

    method Call(b: array<char>, ghost text: string)
      requires installed && CStringAt(b[..], 0, text)
      modifies this`received
      ensures received == old(received) + [text]
    {
      var s := TextAt(b, 0, text);
      received := received + [s];
    }
  }

  /** `first` and `second` say which of the two formatting attempts fail.  An installed
      callback gets one text, up to its first terminator, if and only if the text is not
      empty and either it fits the stack buffer or the heap buffer can be had and filled. */
  method Message(proc: Process, ch: Channel, text: string, first: bool, second: bool)
    modifies proc, ch`received
    ensures var granted := proc.grant(old(proc.ledger.allocs));
            var delivered := ch.installed && !first && text != "" && (|text| < 512 || (granted && !second));
            && ch.received == old(ch.received) + (if delivered then [UpToNul(text)] else [])
            && (delivered && NUL !in text ==> ch.received == old(ch.received) + [text])
    ensures Sound(old(proc.ledger)) ==> Sound(proc.ledger) && proc.ledger.live == old(proc.ledger.live)
    ensures !ch.installed || first || |text| < 512 ==> proc.ledger == old(proc.ledger)
  {
    if NUL !in text {
      UpToNulWhole(text);
    }
    if !ch.installed {
      return;
    }
    var buf := new char[STACK_SIZE];
    var len := Snprintf(buf, STACK_SIZE, text, first);
    if len >= STACK_SIZE {
      var block := proc.Malloc();
      if block.None? {
        return;
      }
      var dynbuf := new char[len + 1];
      proc.Touch(block.value);
      var n := Snprintf(dynbuf, len + 1, text, second);
      if n == len {
        proc.Touch(block.value);
        ch.Call(dynbuf, UpToNul(text));
      }
      proc.FreePtr(block);
    } else if len > 0 {
      ch.Call(buf, UpToNul(text));
    }
  }
}
