/** Callbacks are opaque: a callback is either the name of a method looked up
    on the object at call time or a reference to a function. What running
    them does is recorded as a trace of events on the object that holds the
    state, so that their order can be stated and proved. States are named by
    their paths; a state of the flat machine is a one-segment path. */
module Trace {
  import opened PathTools

  /** A callback given by method name or as a function reference. */
  datatype Callback = Named(name: string) | Ref(id: nat)

  /** One observable step while a trigger or a state change runs. */
  datatype Event =
    | Prepare                          // the machine's `prepare` callbacks
    | EnterContext | LeaveContext      // the trigger's context manager
    | Condition(from: Path, to: Path)  // a transition's condition callbacks
    | Exit(state: Path)                // a state's `on_exit` callbacks
    | Entry(state: Path)               // a state's `on_entry` callbacks
    | Stay(state: Path)                // a state's `on_stay` callbacks
    | Transfer(from: Path, to: Path)   // a transition's `on_transfer` callbacks
    | BeforeAnyExit | AfterAnyEntry    // machine-wide hooks of the flat machine
    | Write(value: string)             // the holder's state attribute is assigned

  /** The values written to the holder's state, in order. */
  function Writes(ev: seq<Event>): seq<string>
  {
    if |ev| == 0 then []
    else Writes(ev[..|ev| - 1]) + (if ev[|ev| - 1].Write? then [ev[|ev| - 1].value] else [])
  }

  /** A single event writes its value if it is a write. */
  lemma WritesOne(e: Event)
    ensures Writes([e]) == if e.Write? then [e.value] else []
  {
    assert [e][..0] == [];
  }

  /** The writes of a trace in two parts are those of the first part, then
      those of the second. */
  lemma {:induction false} WritesAppend(a: seq<Event>, b: seq<Event>)
    ensures Writes(a + b) == Writes(a) + Writes(b)
    decreases |b|
  {
    if |b| == 0 {
      assert a + b == a;
    } else {
      WritesAppend(a, b[..|b| - 1]);
      assert (a + b)[..|a + b| - 1] == a + b[..|b| - 1];
    }
  }

  lemma WritesPair(e: Event, f: Event)
    ensures Writes([e, f]) == Writes([e]) + Writes([f])
  {
    WritesAppend([e], [f]);
    assert [e] + [f] == [e, f];
  }

  /** The object whose state a machine governs. */
  class Holder {
    var state: string
    var trace: seq<Event>

    constructor (initial: string)
      ensures state == initial && trace == []
    {
      state := initial;
      trace := [];
    }
  }
}
