/** UTF-8 as in section 4 of RFC 3629, and what the filter does to it. */
module Utf8 {
  import opened Bytes
  import opened OutputFilters

  predicate Tail(b: byte) {
    0x80 <= b <= 0xbf
  }

  predicate Between(lo: byte, b: byte, hi: byte) {
    lo <= b <= hi
  }

  /** One row of the table per disjunct: a single well-formed character. */
  predicate IsCharacter(c: bytes) {
    || (|c| == 1 && c[0] <= 0x7f)
    || (|c| == 2 && Between(0xc2, c[0], 0xdf) && Tail(c[1]))
    || (|c| == 3 && Tail(c[2])
        && (|| (c[0] == 0xe0 && Between(0xa0, c[1], 0xbf))
            || (Between(0xe1, c[0], 0xec) && Tail(c[1]))
            || (c[0] == 0xed && Between(0x80, c[1], 0x9f))
            || (Between(0xee, c[0], 0xef) && Tail(c[1]))))
    || (|c| == 4 && Tail(c[2]) && Tail(c[3])
        && (|| (c[0] == 0xf0 && Between(0x90, c[1], 0xbf))
            || (Between(0xf1, c[0], 0xf3) && Tail(c[1]))
            || (c[0] == 0xf4 && Between(0x80, c[1], 0x8f))))
  }

  /** The Unicode scalar values: all code points but the surrogates. */
  predicate Scalar(v: int) {
    0 <= v < 0xd800 || 0xe000 <= v <= 0x10ffff
  }

  /** The bits of a value, six to a byte from the end (section 3 of RFC 3629). */
  function Encode(v: int): bytes
    requires Scalar(v)
  {
    if v < 0x80 then [v as byte]
    else if v < 0x800 then [(0xc0 + v / 0x40) as byte, (0x80 + v % 0x40) as byte]
    else if v < 0x1_0000 then
      [(0xe0 + v / 0x1000) as byte, (0x80 + v / 0x40 % 0x40) as byte, (0x80 + v % 0x40) as byte]
    else
      [(0xf0 + v / 0x4_0000) as byte, (0x80 + v / 0x1000 % 0x40) as byte, (0x80 + v / 0x40 % 0x40) as byte, (0x80 + v % 0x40) as byte]
  }

  /** The table's characters are the encodings of the scalar values. */
  lemma EncodingsAreCharacters(v: int)
    requires Scalar(v)
    ensures IsCharacter(Encode(v))
  {
  }

  lemma CharactersAreEncodings(c: bytes) returns (v: int)
    requires IsCharacter(c)
    ensures Scalar(v) && Encode(v) == c
  {
    if |c| == 1 {
      v := c[0] as int;
    } else if |c| == 2 {
      v := (c[0] as int - 0xc0) * 0x40 + (c[1] as int - 0x80);
    } else if |c| == 3 {
      var high := (c[0] as int - 0xe0) * 0x40 + (c[1] as int - 0x80);
      v := high * 0x40 + (c[2] as int - 0x80);
      assert v / 0x40 == high && v / 0x1000 == high / 0x40;
    } else {
      var high := (c[0] as int - 0xf0) * 0x40 + (c[1] as int - 0x80);
      var middle := high * 0x40 + (c[2] as int - 0x80);
      v := middle * 0x40 + (c[3] as int - 0x80);
      assert v / 0x40 == middle && v / 0x1000 == middle / 0x40 == high && v / 0x4_0000 == high / 0x40;
    }
  }

  function Length(lead: byte): nat {
    if lead < 0xe0 then if lead < 0x80 then 1 else 2
    else if lead < 0xf0 then 3 else 4
  }

  /** The octet sequence is UTF-8: characters one after the other. */
  predicate Valid(s: bytes) {
    s == [] ||
    var n := Length(s[0]);
    n <= |s| && IsCharacter(s[..n]) && Valid(s[n..])
  }

  lemma AfterACharacter(c: bytes, rest: bytes)
    requires IsCharacter(c)
    ensures Valid(c + rest) <==> Valid(rest)
  {
    assert (c + rest)[..|c|] == c && (c + rest)[|c|..] == rest;
    assert |c| == Length((c + rest)[0]);
  }

  lemma StrayTail(z: bytes)
    requires z != [] && Tail(z[0])
    ensures !Valid(z)
  {
    var n := Length(z[0]);
    if n <= |z| {
      assert z[..n][0] == z[0];
    }
  }

  predicate High(c: bytes) {
    forall i :: 0 <= i < |c| ==> 0x80 <= c[i]
  }

  function StateAfterHigh(state: State): State {
    match state
    case Normal => Normal
    case Esc => Normal
    case Csi => Csi
    case StringSeq => StringSeq
    case StringSeqSawEsc => StringSeq
  }

  /** Bytes from 0x80 up never open, close or introduce anything; only one in Esc is lost. */
  lemma {:induction false} HighRun(state: State, c: bytes)
    requires High(c) && c != []
    ensures EndState(state, c) == StateAfterHigh(state)
    ensures Output(state, c) == match state case Normal => c case Esc => c[1..] case _ => []
    decreases c
  {
    if |c| > 1 {
      HighRun(Next(state, c[0]), c[1..]);
    }
    assert c == [c[0]] + c[1..];
  }

  /** No byte from 0x80 up is consumed right after an ESC that opens a sequence. */
  predicate NoHighByteInEsc(state: State, input: bytes)
    decreases input
  {
    input == [] || ((state == Esc ==> input[0] < 0x80) && NoHighByteInEsc(Next(state, input[0]), input[1..]))
  }

  lemma {:induction false} HighBytesAreHarmless(state: State, c: bytes, rest: bytes)
    requires High(c) && c != []
    ensures NoHighByteInEsc(state, c + rest) <==> state != Esc && NoHighByteInEsc(StateAfterHigh(state), rest)
    decreases c
  {
    assert (c + rest)[1..] == c[1..] + rest;
    if |c| > 1 {
      HighBytesAreHarmless(Next(state, c[0]), c[1..], rest);
    } else {
      assert c[1..] + rest == rest;
    }
  }

  /** Filtering valid UTF-8 gives valid UTF-8 exactly when no byte from 0x80 up is consumed in Esc. */
  lemma {:induction false} FilterPreservesUtf8(state: State, input: bytes)
    requires Valid(input)
    ensures Valid(Output(state, input)) <==> NoHighByteInEsc(state, input)
    decreases |input|
  {
    if input != [] {
      var n := Length(input[0]);
      var c, rest := input[..n], input[n..];
      assert input == c + rest;
      OutputConcat(state, c, rest);
      if n == 1 {
        var s := Next(state, c[0]);
        assert c[1..] == [];
        assert input[1..] == rest;
        FilterPreservesUtf8(s, rest);
        assert Output(state, c) == Emit(state, c[0]);
        if Emit(state, c[0]) != [] {
          AfterACharacter(Emit(state, c[0]), Output(s, rest));
        } else {
          assert [] + Output(s, rest) == Output(s, rest);
        }
      } else {
        HighCharacter(state, c, rest);
      }
    }
  }

  lemma HighCharacter(state: State, c: bytes, rest: bytes)
    requires IsCharacter(c) && |c| > 1 && Valid(rest)
    ensures Valid(Output(state, c + rest)) <==> NoHighByteInEsc(state, c + rest)
    decreases |c + rest|, 0
  {
    assert High(c);
    HighRun(state, c);
    HighBytesAreHarmless(state, c, rest);
    OutputConcat(state, c, rest);
    var s := StateAfterHigh(state);
    var y := Output(s, rest);
    FilterPreservesUtf8(s, rest);
    if state == Normal {
      AfterACharacter(c, y);
    } else if state == Esc {
      StrayTail(c[1..] + y);
    } else {
      assert [] + y == y;
    }
  }

  /** The condition is needed: ESC followed by a two-byte character leaves half of it behind. */
  lemma HalfACharacter()
    ensures Valid([ESC, 0xc3, 0xa9]) && !Valid(Filtered([ESC, 0xc3, 0xa9]))
  {
    var x := [ESC, 0xc3, 0xa9];
    assert x[1..] == [0xc3, 0xa9] && x[1..][1..] == [0xa9] && x[1..][1..][1..] == [];
    assert Valid([0xc3, 0xa9]) by {
      assert [0xc3, 0xa9][..2] == [0xc3, 0xa9];
    }
    assert x[..1] == [ESC];
    assert Output(Normal, [0xa9]) == [0xa9];
    assert Output(Esc, [0xc3, 0xa9]) == [0xa9];
    assert Filtered(x) == [0xa9];
    StrayTail([0xa9]);
  }

  /** For a whole stream read in any chunks. */
  lemma AnyReadsPreserveUtf8(chunks: seq<bytes>)
    requires Valid(Concat(chunks))
    ensures Valid(PushAll(Normal, chunks)) <==> NoHighByteInEsc(Normal, Concat(chunks))
  {
    ChunkingIsInvisible(Normal, chunks);
    FilterPreservesUtf8(Normal, Concat(chunks));
  }
}
