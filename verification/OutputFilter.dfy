/** The ANSI-stripping filter of src/filter.rs: a five-state byte transducer. */
module OutputFilters {
  import opened Bytes

  datatype State = Normal | Esc | Csi | StringSeq | StringSeqSawEsc

  /** ESC ], ESC P, ESC X, ESC ^ and ESC _ open a control string. */
  predicate OpensString(b: byte) {
    b == 0x5d || b == 0x50 || b == 0x58 || b == 0x5e || b == 0x5f
  }

  predicate EndsCsi(b: byte) {
    0x40 <= b <= 0x7e
  }

  function Next(state: State, b: byte): State {
    match state
    case Normal => if b == ESC then Esc else Normal
    case Esc =>
      if b == 0x5b then Csi
      else if OpensString(b) then StringSeq
      else if b == ESC then Esc
      else Normal
    case Csi => if EndsCsi(b) then Normal else Csi
    case StringSeq =>
      if b == BEL then Normal else if b == ESC then StringSeqSawEsc else StringSeq
    case StringSeqSawEsc =>
      if b == BACKSLASH then Normal else if b == ESC then StringSeqSawEsc else StringSeq
  }

  function Emit(state: State, b: byte): bytes {
    if state != Normal || b == ESC then []
    else if b == CR then [LF]
    else [b]
  }

  function EndState(state: State, input: bytes): State
    decreases input
  {
    if input == [] then state else EndState(Next(state, input[0]), input[1..])
  }

  function Output(state: State, input: bytes): bytes
    decreases input
  {
    if input == [] then [] else Emit(state, input[0]) + Output(Next(state, input[0]), input[1..])
  }

  /** What the filter makes of a whole stream, from a fresh filter. */
  function Filtered(input: bytes): bytes {
    Output(Normal, input)
  }

  class OutputFilter {
    var state: State

    constructor ()
      ensures state == Normal
    {
      state := Normal;
    }

    /** One chunk: the bytes are appended to what `out` already holds. */
    method Push(input: bytes, out: bytes) returns (grown: bytes)
      modifies this
      ensures grown == out + Output(old(state), input)
      ensures state == EndState(old(state), input)
    {
      grown := out;
      for i := 0 to |input|
        invariant state == EndState(old(state), input[..i])
        invariant grown == out + Output(old(state), input[..i])
      {
        var b := input[i];
        OneMoreByte(old(state), input[..i], b);
        assert input[..i + 1] == input[..i] + [b];
        match state {
          case Normal =>
            if b == ESC {
              state := Esc;
            } else if b == CR {
              grown := grown + [LF];
            } else {
              grown := grown + [b];
            }
          case Esc =>
            if b == 0x5b {
              state := Csi;
            } else if OpensString(b) {
              state := StringSeq;
            } else if b != ESC {
              state := Normal;
            }
          case Csi =>
            if EndsCsi(b) {
              state := Normal;
            }
          case StringSeq =>
            if b == BEL {
              state := Normal;
            } else if b == ESC {
              state := StringSeqSawEsc;
            }
          case StringSeqSawEsc =>
            if b == BACKSLASH {
              state := Normal;
            } else if b != ESC {
              state := StringSeq;
            }
        }
      }
      assert input[..|input|] == input;
    }
  }

  lemma {:induction false} EndStateConcat(state: State, a: bytes, b: bytes)
    ensures EndState(state, a + b) == EndState(EndState(state, a), b)
    decreases a
  {
    if a == [] {
      assert a + b == b;
    } else {
      assert (a + b)[1..] == a[1..] + b;
      EndStateConcat(Next(state, a[0]), a[1..], b);
    }
  }

  lemma {:induction false} OutputConcat(state: State, a: bytes, b: bytes)
    ensures Output(state, a + b) == Output(state, a) + Output(EndState(state, a), b)
    decreases a
  {
    if a == [] {
      assert a + b == b;
    } else {
      assert (a + b)[1..] == a[1..] + b;
      OutputConcat(Next(state, a[0]), a[1..], b);
    }
  }

  lemma OneMoreByte(state: State, input: bytes, b: byte)
    ensures EndState(state, input + [b]) == Next(EndState(state, input), b)
    ensures Output(state, input + [b]) == Output(state, input) + Emit(EndState(state, input), b)
  {
    EndStateConcat(state, input, [b]);
    OutputConcat(state, input, [b]);
  }

  /** What a stream of reads accumulates, one `Push` per chunk. */
  function PushAll(state: State, chunks: seq<bytes>): bytes
    decreases chunks
  {
    if chunks == [] then []
    else Output(state, chunks[0]) + PushAll(EndState(state, chunks[0]), chunks[1..])
  }

  /** Chunk invariance: how the reads cut the stream does not matter. */
  lemma {:induction false} ChunkingIsInvisible(state: State, chunks: seq<bytes>)
    ensures PushAll(state, chunks) == Output(state, Concat(chunks))
    decreases chunks
  {
    if chunks != [] {
      ChunkingIsInvisible(EndState(state, chunks[0]), chunks[1..]);
      OutputConcat(state, chunks[0], Concat(chunks[1..]));
    }
  }

  predicate Clean(text: bytes) {
    forall i :: 0 <= i < |text| ==> text[i] != ESC && text[i] != CR
  }

  /** The output never contains ESC or CR and is no longer than the input. */
  lemma {:induction false} OutputIsClean(state: State, input: bytes)
    ensures Clean(Output(state, input))
    ensures |Output(state, input)| <= |input|
    decreases input
  {
    if input != [] {
      OutputIsClean(Next(state, input[0]), input[1..]);
    }
  }

  /** Text without ESC or CR passes through unchanged, and exactly such text does. */
  lemma {:induction false} CleanTextIsFixed(text: bytes)
    ensures Clean(text) <==> Filtered(text) == text
    ensures Clean(text) ==> EndState(Normal, text) == Normal
  {
    if Clean(text) {
      CleanTextRuns(text);
    } else {
      OutputIsClean(Normal, text);
    }
  }

  lemma {:induction false} CleanTextRuns(text: bytes)
    requires Clean(text)
    ensures Filtered(text) == text && EndState(Normal, text) == Normal
  {
    if text != [] {
      CleanTextRuns(text[1..]);
      assert text == [text[0]] + text[1..];
    }
  }

  lemma FilteringIsIdempotent(input: bytes)
    ensures Filtered(Filtered(input)) == Filtered(input)
  {
    OutputIsClean(Normal, input);
    CleanTextIsFixed(Filtered(input));
  }
}
