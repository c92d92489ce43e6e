/** The producer/consumer buffer between a command's PTY reader and its console job, and the
    ticket that orders the jobs (src/host.rs). Each method is one critical section; the
    functions beside them are the same sections on values, which the step system uses. */
module PtyBuffers {
  import opened Bytes
  import opened OutputFilters

  datatype Pty = Pty(rawPending: bytes, rawTotal: bytes, filteredTotal: bytes, eof: bool, consoleOutput: bool)

  function NewPty(silent: bool): Pty {
    Pty([], [], [], false, !silent)
  }

  function Produced(p: Pty, filter: State, chunk: bytes): Pty {
    p.(rawPending := if p.consoleOutput then p.rawPending + chunk else p.rawPending,
       rawTotal := p.rawTotal + chunk,
       filteredTotal := p.filteredTotal + Output(filter, chunk))
  }

  function Ended(p: Pty): Pty {
    p.(eof := true)
  }

  /** The condition under which `drain_to_stdout` sleeps. */
  predicate MustSleep(p: Pty) {
    p.rawPending == [] && !p.eof
  }

  function Taken(p: Pty): Pty {
    p.(rawPending := [])
  }

  class PtyBuffer {
    var rawPending: bytes
    var rawTotal: bytes
    var filteredTotal: bytes
    var eof: bool
    const consoleOutput: bool

    ghost function Value(): Pty
      reads this
    {
      Pty(rawPending, rawTotal, filteredTotal, eof, consoleOutput)
    }

    constructor (silent: bool)
      ensures Value() == NewPty(silent)
    {
      rawPending, rawTotal, filteredTotal, eof := [], [], [], false;
      consoleOutput := !silent;
    }

    /** The reader thread got a chunk. */
    method Extend(chunk: bytes, filter: OutputFilter)
      modifies this, filter
      ensures Value() == Produced(old(Value()), old(filter.state), chunk)
      ensures filter.state == EndState(old(filter.state), chunk)
    {
      if consoleOutput {
        rawPending := rawPending + chunk;
      }
      rawTotal := rawTotal + chunk;
      filteredTotal := filter.Push(chunk, filteredTotal);
    }

    /** The reader thread is through. */
    method Finish()
      modifies this
      ensures Value() == Ended(old(Value()))
    {
      eof := true;
    }

    /** The console job looks: it sleeps, or takes what is pending and whether that is the end. */
    method Take() returns (sleeps: bool, chunk: bytes, last: bool)
      modifies this
      ensures sleeps <==> old(rawPending) == [] && !old(eof)
      ensures Value() == if sleeps then old(Value()) else Taken(old(Value()))
      ensures !sleeps ==> chunk == old(rawPending) && last == eof && rawPending == []
    {
      sleeps, chunk, last := rawPending == [] && !eof, [], false;
      if !sleeps {
        chunk, last := rawPending, eof;
        rawPending := [];
      }
    }
  }

  /** One more read is one more chunk at the end of the stream and of what the filter made of it. */
  lemma OneMoreRead(before: seq<bytes>, chunk: bytes)
    ensures Concat(before + [chunk]) == Concat(before) + chunk
    ensures Filtered(Concat(before + [chunk])) == Filtered(Concat(before)) + Output(EndState(Normal, Concat(before)), chunk)
    ensures EndState(Normal, Concat(before + [chunk])) == EndState(EndState(Normal, Concat(before)), chunk)
  {
    ConcatAppend(before, [chunk]);
    ConcatOne([chunk]);
    OutputConcat(Normal, Concat(before), chunk);
    EndStateConcat(Normal, Concat(before), chunk);
  }

  /** The buffer after these reads from p on, with a fresh filter. */
  function AfterReads(p: Pty, chunks: seq<bytes>): Pty {
    Produced(p, Normal, Concat(chunks))
  }

  lemma OneMoreProduced(p: Pty, before: seq<bytes>, chunk: bytes)
    ensures Produced(AfterReads(p, before), EndState(Normal, Concat(before)), chunk) == AfterReads(p, before + [chunk])
  {
    OneMoreRead(before, chunk);
    hide Concat, Output, EndState;
    var stream := Concat(before);
    Assoc(p.rawPending, stream, chunk);
    Assoc(p.rawTotal, stream, chunk);
    Assoc(p.filteredTotal, Output(Normal, stream), Output(EndState(Normal, stream), chunk));
  }

  lemma NothingProduced(p: Pty)
    ensures AfterReads(p, []) == p && EndState(Normal, Concat([])) == Normal
  {
  }

  /** What comes next at the buffer: the reader's read, where an empty one is the end and so is
      any error, or a look of the console job between two reads. */
  datatype PtyEvent = Got(chunk: bytes) | Interrupted | Failed | JobLooks

  predicate Ends(e: PtyEvent) {
    e == Failed || e == Got([])
  }

  /** The chunks up to the end. */
  function Received(input: seq<PtyEvent>): seq<bytes> {
    if input == [] || Ends(input[0]) then []
    else (if input[0].Got? then [input[0].chunk] else []) + Received(input[1..])
  }

  /** The buffer after these reads, when the job has taken `taken` of it in between. */
  ghost predicate Shared(start: Pty, chunks: seq<bytes>, taken: bytes, now: Pty) {
    && now == AfterReads(start, chunks).(rawPending := now.rawPending)
    && taken + now.rawPending == AfterReads(start, chunks).rawPending
  }

  lemma NothingShared(start: Pty)
    ensures Shared(start, [], [], start)
  {
    NothingProduced(start);
    assert [] + start.rawPending == start.rawPending;
  }

  lemma OneMoreShared(start: Pty, chunks: seq<bytes>, taken: bytes, now: Pty, chunk: bytes)
    requires Shared(start, chunks, taken, now)
    ensures Shared(start, chunks + [chunk], taken, Produced(now, EndState(Normal, Concat(chunks)), chunk))
  {
    OneMoreProduced(start, chunks, chunk);
    hide AfterReads, Output, EndState, Concat;
    Assoc(taken, now.rawPending, chunk);
  }

  lemma SharedAndTaken(start: Pty, chunks: seq<bytes>, taken: bytes, now: Pty)
    requires Shared(start, chunks, taken, now)
    ensures Shared(start, chunks, taken + now.rawPending, Taken(now))
  {
    hide AfterReads;
    assert taken + now.rawPending + [] == taken + now.rawPending;
  }

  /** The reader thread's loop over what its reads come to, with the console job looking in
      between: the totals are those of the whole stream, and what the job has taken and what is
      left to take is all of what was pending and has come, in order. */
  method PtyReader(input: seq<PtyEvent>, buffer: PtyBuffer) returns (taken: bytes)
    requires !buffer.eof
    modifies buffer
    ensures var all := Ended(Produced(old(buffer.Value()), Normal, Concat(Received(input))));
            && buffer.Value() == all.(rawPending := buffer.rawPending)
            && taken + buffer.rawPending == all.rawPending
    ensures JobLooks !in input ==> taken == []
  {
    hide Produced, EndState, Concat, Shared, Taken;
    var filter := new OutputFilter();
    ghost var start := buffer.Value();
    ghost var chunks: seq<bytes> := [];
    taken := [];
    NothingShared(start);
    NothingProduced(start);
    var i := 0;
    assert input[0..] == input && [] + Received(input) == Received(input);
    while i < |input| && !Ends(input[i])
      invariant i <= |input|
      invariant chunks + Received(input[i..]) == Received(input)
      invariant filter.state == EndState(Normal, Concat(chunks))
      invariant Shared(start, chunks, taken, buffer.Value())
      invariant JobLooks !in input ==> taken == []
    {
      assert input[i..][1..] == input[i + 1..] && input[i] in input;
      match input[i] {
        case Got(chunk) =>
          OneMoreShared(start, chunks, taken, buffer.Value(), chunk);
          OneMoreRead(chunks, chunk);
          buffer.Extend(chunk, filter);
          Assoc(chunks, [chunk], Received(input[i + 1..]));
          chunks := chunks + [chunk];
        case JobLooks =>
          SharedAndTaken(start, chunks, taken, buffer.Value());
          assert [] + Received(input[i + 1..]) == Received(input[i + 1..]);
          var sleeps, chunk, last := buffer.Take();
          if !sleeps {
            taken := taken + chunk;
          }
        case Interrupted =>
          assert [] + Received(input[i + 1..]) == Received(input[i + 1..]);
        case Failed =>
      }
      i := i + 1;
    }
    assert Received(input[i..]) == [] && chunks + [] == chunks;
    SharedAtTheEnd(start, chunks, taken, buffer.Value());
    buffer.Finish();
  }

  lemma SharedAtTheEnd(start: Pty, chunks: seq<bytes>, taken: bytes, now: Pty)
    requires Shared(start, chunks, taken, now)
    ensures var all := Ended(Produced(start, Normal, Concat(chunks)));
            Ended(now) == all.(rawPending := now.rawPending) && taken + now.rawPending == all.rawPending
  {
    hide Concat, Output;
  }

  /** The test `wait_turn` sleeps on. */
  predicate MustWait(next: nat, ticket: nat) {
    next < ticket
  }

  /** The ticket on display and who sleeps until it changes. */
  datatype Ticket = Ticket(next: nat, asleep: set<nat>)

  /** After one look by the holder of a ticket number. */
  function Looked(t: Ticket, number: nat): Ticket {
    t.(asleep := if MustWait(t.next, number) then t.asleep + {number} else t.asleep - {number})
  }

  function Advanced(t: Ticket): Ticket {
    Ticket(t.next + 1, {})
  }

  /** Nobody sleeps whose turn has come. */
  predicate NobodyOversleeps(t: Ticket) {
    forall number :: number in t.asleep ==> MustWait(t.next, number)
  }

  /** `asleep` is the wait set of the condition variable. */
  class PrintQueue {
    var next: nat
    var asleep: set<nat>

    ghost function Value(): Ticket
      reads this
    {
      Ticket(next, asleep)
    }

    constructor ()
      ensures Value() == Ticket(0, {}) && NobodyOversleeps(Value())
    {
      next, asleep := 0, {};
    }

    /** One look at the queue in `wait_turn`; who must wait goes to sleep in the same step. */
    method MustWaitFor(number: nat) returns (sleeps: bool)
      requires NobodyOversleeps(Value())
      modifies this`asleep
      ensures Value() == Looked(old(Value()), number)
      ensures sleeps <==> number in asleep
      ensures NobodyOversleeps(Value())
    {
      sleeps := next < number;
      asleep := if sleeps then asleep + {number} else asleep - {number};
    }

    /** The drop of a `PrintTurn`: it wakes every sleeper, since the one whose turn comes may be
        any of them. */
    method Release()
      requires NobodyOversleeps(Value())
      modifies this
      ensures Value() == Advanced(old(Value()))
      ensures NobodyOversleeps(Value())
    {
      next := next + 1;
      asleep := {};
    }
  }
}
