/** The grammar the filter implements, written without its states: a stream is a list of
    lexemes and an unfinished tail (compare sections 5.4 and 5.6 of ECMA-48), and filtering
    keeps the text, turns each CR into LF and drops everything else. */
module FilterGrammar {
  import opened Bytes
  import opened OutputFilters

  /** `escs` counts the ESC bytes in a row that introduce a sequence; all but the last are noise. */
  datatype Lexeme =
    | Text(b: byte)
    | CarriageReturn
    | TwoByte(escs: nat, final: byte)
    | ControlSequence(escs: nat, payload: bytes)
    | ControlString(escs: nat, opener: byte, payload: bytes)

  /** The final bytes of a control sequence, from @ to ~ (ECMA-48, section 5.4). */
  predicate FinalByte(b: byte) {
    0x40 <= b <= 0x7e
  }

  /** ], P, X, ^ and _ introduce a control string (ECMA-48, section 5.6). */
  predicate IntroducesString(b: byte) {
    b == 0x5d || b == 0x50 || b == 0x58 || b == 0x5e || b == 0x5f
  }

  function Escs(n: nat): bytes {
    seq(n, _ => ESC)
  }

  function Spelling(l: Lexeme): bytes {
    match l
    case Text(b) => [b]
    case CarriageReturn => [CR]
    case TwoByte(n, b) => Escs(n) + [b]
    case ControlSequence(n, p) => Escs(n) + ([0x5b] + p)
    case ControlString(n, o, p) => Escs(n) + ([o] + p)
  }

  function Rendering(l: Lexeme): bytes {
    match l
    case Text(b) => [b]
    case CarriageReturn => [LF]
    case _ => []
  }

  /** Whether byte i closes a control string: BEL, unless the byte before it is ESC, or the
      backslash of ESC backslash. */
  predicate Closes(payload: bytes, i: nat)
    requires i < |payload|
  {
    || (payload[i] == BEL && (i == 0 || payload[i - 1] != ESC))
    || (payload[i] == BACKSLASH && i > 0 && payload[i - 1] == ESC)
  }

  predicate NoFinal(p: bytes) {
    forall i :: 0 <= i < |p| ==> !FinalByte(p[i])
  }

  predicate NoClose(p: bytes) {
    forall i :: 0 <= i < |p| ==> !Closes(p, i)
  }

  /** ESC followed by one of these is a complete two-byte sequence. */
  predicate TwoByteFinal(b: byte) {
    b != ESC && b != 0x5b && !IntroducesString(b)
  }

  predicate WellFormed(l: Lexeme) {
    match l
    case Text(b) => b != ESC && b != CR
    case CarriageReturn => true
    case TwoByte(n, b) => n > 0 && TwoByteFinal(b)
    case ControlSequence(n, p) => n > 0 && p != [] && NoFinal(p[..|p| - 1]) && FinalByte(p[|p| - 1])
    case ControlString(n, o, p) =>
      n > 0 && IntroducesString(o) && p != [] && Closes(p, |p| - 1)
      && forall i :: 0 <= i < |p| - 1 ==> !Closes(p, i)
  }

  /** An escape sequence that has begun and not ended, or nothing. */
  datatype Tail =
    | Nothing
    | BareEscs(escs: nat)
    | OpenSequence(escs: nat, payload: bytes)
    | OpenString(escs: nat, opener: byte, payload: bytes)

  function TailSpelling(t: Tail): bytes {
    match t
    case Nothing => []
    case BareEscs(n) => Escs(n)
    case OpenSequence(n, p) => Escs(n) + ([0x5b] + p)
    case OpenString(n, o, p) => Escs(n) + ([o] + p)
  }

  predicate WellFormedTail(t: Tail) {
    match t
    case Nothing => true
    case BareEscs(n) => n > 0
    case OpenSequence(n, p) => n > 0 && NoFinal(p)
    case OpenString(n, o, p) => n > 0 && IntroducesString(o) && NoClose(p)
  }

  function Spell(ls: seq<Lexeme>): bytes {
    if ls == [] then [] else Spelling(ls[0]) + Spell(ls[1..])
  }

  function Render(ls: seq<Lexeme>): bytes {
    if ls == [] then [] else Rendering(ls[0]) + Render(ls[1..])
  }

  /** `ls` and `t` are a tokenisation of `input`. */
  ghost predicate Tokenises(ls: seq<Lexeme>, t: Tail, input: bytes) {
    && (forall l :: l in ls ==> WellFormed(l))
    && WellFormedTail(t)
    && input == Spell(ls) + TailSpelling(t)
  }

  lemma Cons(l: Lexeme, ls: seq<Lexeme>, t: Tail, rest: bytes)
    requires WellFormed(l) && Tokenises(ls, t, rest)
    ensures Tokenises([l] + ls, t, Spelling(l) + rest)
  {
    var all := [l] + ls;
    assert all[1..] == ls;
    Assoc(Spelling(l), Spell(ls), TailSpelling(t));
  }

  lemma Uncons(ls: seq<Lexeme>, t: Tail, input: bytes) returns (rest: bytes)
    requires Tokenises(ls, t, input) && ls != []
    ensures WellFormed(ls[0]) && Tokenises(ls[1..], t, rest)
    ensures input == Spelling(ls[0]) + rest
  {
    rest := Spell(ls[1..]) + TailSpelling(t);
    Assoc(Spelling(ls[0]), Spell(ls[1..]), TailSpelling(t));
  }

  // ---------- how the transducer runs over the pieces of a lexeme ----------

  lemma {:induction false} EscsRun(n: nat)
    requires n > 0
    ensures EndState(Normal, Escs(n)) == Esc && Output(Normal, Escs(n)) == []
  {
    if n == 1 {
      assert Escs(1) == [] + [ESC];
      OneMoreByte(Normal, [], ESC);
    } else {
      EscsRun(n - 1);
      assert Escs(n) == Escs(n - 1) + [ESC];
      OneMoreByte(Normal, Escs(n - 1), ESC);
    }
  }

  lemma {:induction false} SequenceRun(p: bytes)
    requires NoFinal(p)
    ensures EndState(Csi, p) == Csi && Output(Csi, p) == []
    decreases p
  {
    if p != [] {
      SequenceRun(p[1..]);
    }
  }

  function InString(p: bytes): State {
    if p != [] && p[|p| - 1] == ESC then StringSeqSawEsc else StringSeq
  }

  lemma {:induction false} StringRun(p: bytes)
    requires NoClose(p)
    ensures EndState(StringSeq, p) == InString(p) && Output(StringSeq, p) == []
  {
    if p != [] {
      var q, b := p[..|p| - 1], p[|p| - 1];
      forall i | 0 <= i < |q| ensures !Closes(q, i) {
        assert !Closes(p, i);
      }
      StringRun(q);
      assert p == q + [b];
      OneMoreByte(StringSeq, q, b);
      assert !Closes(p, |p| - 1);
    }
  }

  /** ESC... and the byte after it, from Normal. */
  lemma IntroducerRun(n: nat, b: byte, rest: bytes)
    requires n > 0
    ensures EndState(Normal, Escs(n) + ([b] + rest)) == EndState(Next(Esc, b), rest)
    ensures Output(Normal, Escs(n) + ([b] + rest)) == Output(Next(Esc, b), rest)
  {
    EscsRun(n);
    EndStateConcat(Normal, Escs(n), [b] + rest);
    OutputConcat(Normal, Escs(n), [b] + rest);
    assert ([b] + rest)[1..] == rest;
  }

  /** A lexeme takes the transducer from Normal back to Normal and leaves its rendering. */
  lemma LexemeRun(l: Lexeme)
    requires WellFormed(l)
    ensures EndState(Normal, Spelling(l)) == Normal
    ensures Output(Normal, Spelling(l)) == Rendering(l)
  {
    match l
    case Text(b) => assert [b][1..] == [];
    case CarriageReturn => assert [CR][1..] == [];
    case TwoByte(n, b) =>
      IntroducerRun(n, b, []);
      assert [b] + [] == [b];
    case ControlSequence(n, p) =>
      var q, b := p[..|p| - 1], p[|p| - 1];
      IntroducerRun(n, 0x5b, p);
      SequenceRun(q);
      assert p == q + [b];
      OneMoreByte(Csi, q, b);
    case ControlString(n, o, p) => ControlStringRun(n, o, p);
  }

  lemma ControlStringRun(n: nat, o: byte, p: bytes)
    requires WellFormed(ControlString(n, o, p))
    ensures EndState(Normal, Spelling(ControlString(n, o, p))) == Normal
    ensures Output(Normal, Spelling(ControlString(n, o, p))) == []
  {
    hide EndState, Output;
    var q, b := p[..|p| - 1], p[|p| - 1];
    forall i | 0 <= i < |q| ensures !Closes(q, i) {
      assert !Closes(p, i);
    }
    IntroducerRun(n, o, p);
    StringRun(q);
    assert p == q + [b];
    OneMoreByte(StringSeq, q, b);
  }

  /** The tail is swallowed and leaves the transducer inside it. */
  lemma TailRun(t: Tail)
    requires WellFormedTail(t)
    ensures Output(Normal, TailSpelling(t)) == []
    ensures EndState(Normal, TailSpelling(t)) == Normal <==> t == Nothing
  {
    match t
    case Nothing =>
    case BareEscs(n) => EscsRun(n);
    case OpenSequence(n, p) => IntroducerRun(n, 0x5b, p); SequenceRun(p);
    case OpenString(n, o, p) => IntroducerRun(n, o, p); StringRun(p);
  }

  /** The filter refines the grammar: whatever tokenises the input renders to the output. */
  lemma {:induction false} FilterRefinesGrammar(ls: seq<Lexeme>, t: Tail, input: bytes)
    requires Tokenises(ls, t, input)
    ensures Filtered(input) == Render(ls)
    ensures EndState(Normal, input) == Normal <==> t == Nothing
    decreases ls
  {
    if ls == [] {
      TailRun(t);
      assert input == TailSpelling(t);
    } else {
      var rest := Spell(ls[1..]) + TailSpelling(t);
      assert input == Spelling(ls[0]) + rest;
      FilterRefinesGrammar(ls[1..], t, rest);
      LexemeRun(ls[0]);
      OutputConcat(Normal, Spelling(ls[0]), rest);
      EndStateConcat(Normal, Spelling(ls[0]), rest);
    }
  }

  // ---------- every stream has a tokenisation ----------

  function LeadingEscs(input: bytes): (n: nat)
    ensures n <= |input| && input[..n] == Escs(n)
    ensures n < |input| ==> input[n] != ESC
  {
    if input == [] || input[0] != ESC then 0
    else
      var n := LeadingEscs(input[1..]);
      assert input[..n + 1] == [ESC] + input[1..][..n];
      n + 1
  }

  /** Index of the first byte that ends a control sequence, or the length. */
  function FirstFinal(p: bytes): (n: nat)
    ensures n <= |p| && NoFinal(p[..n])
    ensures n < |p| ==> FinalByte(p[n])
  {
    if p == [] || FinalByte(p[0]) then 0 else 1 + FirstFinal(p[1..])
  }

  /** Index of the first byte from `from` on that closes a control string, or the length. */
  function FirstClose(p: bytes, from: nat): (n: nat)
    requires from <= |p|
    ensures from <= n <= |p|
    ensures forall i :: from <= i < n ==> !Closes(p, i)
    ensures n < |p| ==> Closes(p, n)
    decreases |p| - from
  {
    if from == |p| || Closes(p, from) then from else FirstClose(p, from + 1)
  }

  datatype Piece = Whole(lexeme: Lexeme) | Rest(tail: Tail)

  /** The first lexeme of a non-empty stream, or the tail it is. */
  function FirstPiece(input: bytes): (r: Piece)
    requires input != []
  {
    if input[0] == CR then Whole(CarriageReturn)
    else if input[0] != ESC then Whole(Text(input[0]))
    else
      var n := LeadingEscs(input);
      if n == |input| then Rest(BareEscs(n))
      else PieceAfter(n, input[n], input[n + 1..])
  }

  /** The piece that n ESC bytes, b and p begin with. */
  function PieceAfter(n: nat, b: byte, p: bytes): (r: Piece) {
    if TwoByteFinal(b) then Whole(TwoByte(n, b))
    else if b == 0x5b then
      var k := FirstFinal(p);
      if k == |p| then Rest(OpenSequence(n, p)) else Whole(ControlSequence(n, p[..k + 1]))
    else
      var k := FirstClose(p, 0);
      if k == |p| then Rest(OpenString(n, b, p)) else Whole(ControlString(n, b, p[..k + 1]))
  }

  ghost predicate RightPiece(r: Piece, input: bytes) {
    match r
    case Whole(l) => WellFormed(l) && Spelling(l) != [] && Spelling(l) <= input
    case Rest(t) => WellFormedTail(t) && TailSpelling(t) == input
  }

  lemma SequencePiece(n: nat, p: bytes, k: nat)
    requires n > 0 && k < |p| && NoFinal(p[..k]) && FinalByte(p[k])
    ensures RightPiece(Whole(ControlSequence(n, p[..k + 1])), Escs(n) + ([0x5b] + p))
  {
    var q := p[..k + 1];
    assert q[..|q| - 1] == p[..k];
    PrefixUnder([0x5b], q, p);
    PrefixUnder(Escs(n), [0x5b] + q, [0x5b] + p);
  }

  lemma StringPiece(n: nat, o: byte, p: bytes, k: nat)
    requires n > 0 && IntroducesString(o) && k < |p|
    requires Closes(p, k) && forall i :: 0 <= i < k ==> !Closes(p, i)
    ensures RightPiece(Whole(ControlString(n, o, p[..k + 1])), Escs(n) + ([o] + p))
  {
    var q := p[..k + 1];
    forall i | 0 <= i < |q| ensures Closes(q, i) == Closes(p, i) {
      assert q[i] == p[i];
    }
    PrefixUnder([o], q, p);
    PrefixUnder(Escs(n), [o] + q, [o] + p);
  }

  lemma PieceAfterIsRight(n: nat, b: byte, p: bytes)
    requires n > 0 && b != ESC
    ensures RightPiece(PieceAfter(n, b, p), Escs(n) + ([b] + p))
  {
    if TwoByteFinal(b) {
      Assoc(Escs(n), [b], p);
    } else if b == 0x5b {
      var k := FirstFinal(p);
      if k < |p| {
        SequencePiece(n, p, k);
      } else {
        assert p[..k] == p;
      }
    } else {
      var k := FirstClose(p, 0);
      if k < |p| {
        StringPiece(n, b, p, k);
      }
    }
  }

  lemma FirstPieceIsRight(input: bytes)
    requires input != []
    ensures RightPiece(FirstPiece(input), input)
  {
    if input[0] == ESC {
      var n := LeadingEscs(input);
      assert n > 0 by {
        assert input[..0] == [];
      }
      if n == |input| {
        assert input[..n] == input;
      } else {
        assert input == Escs(n) + ([input[n]] + input[n + 1..]);
        PieceAfterIsRight(n, input[n], input[n + 1..]);
      }
    }
  }

  lemma {:induction false} EveryStreamTokenises(input: bytes) returns (ls: seq<Lexeme>, t: Tail)
    ensures Tokenises(ls, t, input)
    decreases |input|
  {
    if input == [] {
      ls, t := [], Nothing;
    } else {
      FirstPieceIsRight(input);
      match FirstPiece(input)
      case Rest(tail) =>
        ls, t := [], tail;
        assert Spell(ls) == [];
      case Whole(l) =>
        var rest := input[|Spelling(l)|..];
        assert input == Spelling(l) + rest;
        ls, t := EveryStreamTokenises(rest);
        Cons(l, ls, t, rest);
        ls := [l] + ls;
    }
  }

  // ---------- what a reader of the output may rely on ----------

  /** A control sequence ends at the first byte from 0x40 to 0x7e and is gone with it; one that
      has not ended swallows everything. */
  lemma ControlSequencesAreErased(p: bytes, f: byte, rest: bytes)
    requires forall i :: 0 <= i < |p| ==> p[i] < 0x40 || p[i] > 0x7e
    requires 0x40 <= f <= 0x7e
    ensures Filtered([0x1b, 0x5b] + p + [f] + rest) == Filtered(rest)
    ensures Filtered([0x1b, 0x5b] + p) == []
  {
    var l, t := ControlSequence(1, p + [f]), OpenSequence(1, p);
    assert WellFormed(l);
    assert Spelling(l) == [0x1b, 0x5b] + p + [f] && TailSpelling(t) == [0x1b, 0x5b] + p;
    LexemeRun(l);
    TailRun(t);
    OutputConcat(Normal, Spelling(l), rest);
  }

  /** After an ESC, exactly ], P, X, ^ and _ open a control string: plain text after one of them
      is swallowed, and after any other byte that does not open a control sequence or repeat
      the ESC it is left alone. */
  lemma FiveBytesOpenAString(b: byte, text: bytes)
    requires b != 0x1b && b != 0x5b
    requires forall i :: 0 <= i < |text| ==> text[i] != 0x1b && text[i] != 0x07 && text[i] != 0x0d
    ensures b in {0x5d, 0x50, 0x58, 0x5e, 0x5f} ==> Filtered([0x1b, b] + text) == []
    ensures b !in {0x5d, 0x50, 0x58, 0x5e, 0x5f} ==> Filtered([0x1b, b] + text) == text
  {
    if b in {0x5d, 0x50, 0x58, 0x5e, 0x5f} {
      var t := OpenString(1, b, text);
      assert TailSpelling(t) == [0x1b, b] + text;
      TailRun(t);
    } else {
      var l := TwoByte(1, b);
      assert Spelling(l) == [0x1b, b];
      LexemeRun(l);
      OutputConcat(Normal, [0x1b, b], text);
      CleanTextRuns(text);
    }
  }

  /** A control string of any kind ends at a BEL or at ESC backslash and is gone with it. */
  lemma ControlStringsAreErased(opener: byte, text: bytes, rest: bytes)
    requires opener in {0x5d, 0x50, 0x58, 0x5e, 0x5f}
    requires forall i :: 0 <= i < |text| ==> text[i] != 0x1b && text[i] != 0x07
    ensures Filtered([0x1b, opener] + text + [0x07] + rest) == Filtered(rest)
    ensures Filtered([0x1b, opener] + text + [0x1b, 0x5c] + rest) == Filtered(rest)
  {
    var l, m := ControlString(1, opener, text + [0x07]), ControlString(1, opener, text + [0x1b, 0x5c]);
    assert Spelling(l) == [0x1b, opener] + text + [0x07];
    assert Spelling(m) == [0x1b, opener] + text + [0x1b, 0x5c];
    ClosedByBel(opener, text);
    ClosedByTerminator(opener, text);
    hide WellFormed, Spelling, Output, EndState;
    LexemeRun(l);
    LexemeRun(m);
    OutputConcat(Normal, [0x1b, opener] + text + [0x07], rest);
    OutputConcat(Normal, [0x1b, opener] + text + [0x1b, 0x5c], rest);
  }

  lemma ClosedByBel(opener: byte, text: bytes)
    requires IntroducesString(opener)
    requires forall i :: 0 <= i < |text| ==> text[i] != 0x1b && text[i] != 0x07
    ensures WellFormed(ControlString(1, opener, text + [0x07]))
  {
  }

  lemma ClosedByTerminator(opener: byte, text: bytes)
    requires IntroducesString(opener)
    requires forall i :: 0 <= i < |text| ==> text[i] != 0x1b && text[i] != 0x07
    ensures WellFormed(ControlString(1, opener, text + [0x1b, 0x5c]))
  {
  }

  // ---------- two streams a terminal reads otherwise ----------

  /** ESC ( B designates a character set with three bytes; here ESC ( is complete and the B is text. */
  lemma DesignationLeavesItsFinal(rest: bytes)
    ensures Filtered([ESC, 0x28, 0x42] + rest) == [0x42] + Filtered(rest)
  {
    var l := TwoByte(1, 0x28);
    assert Spelling(l) == [ESC, 0x28];
    LexemeRun(l);
    LexemeRun(Text(0x42));
    OutputConcat(Normal, [ESC, 0x28], [0x42] + rest);
    OutputConcat(Normal, [0x42], rest);
    assert [ESC, 0x28, 0x42] + rest == [ESC, 0x28] + ([0x42] + rest);
  }

  /** A BEL right after an ESC does not end a control string; without that ESC it does. */
  lemma EscapedBelDoesNotClose(opener: byte, rest: bytes)
    requires IntroducesString(opener)
    ensures Filtered([ESC, opener, ESC, BEL] + rest) == Output(StringSeq, rest)
    ensures Filtered([ESC, opener, BEL] + rest) == Filtered(rest)
  {
    var open, closed := OpenString(1, opener, [ESC, BEL]), ControlString(1, opener, [BEL]);
    assert TailSpelling(open) == [ESC, opener, ESC, BEL] && Spelling(closed) == [ESC, opener, BEL];
    TailRun(open);
    IntroducerRun(1, opener, [ESC, BEL]);
    StringRun([ESC, BEL]);
    LexemeRun(closed);
    OutputConcat(Normal, TailSpelling(open), rest);
    OutputConcat(Normal, Spelling(closed), rest);
  }

  // ---------- and only one ----------

  /** Inside a lexeme the transducer is not in Normal: no lexeme is a prefix of another. */
  lemma InsideALexeme(l: Lexeme, k: nat)
    requires WellFormed(l) && 0 < k < |Spelling(l)|
    ensures EndState(Normal, Spelling(l)[..k]) != Normal
  {
    var s := Spelling(l);
    match l
    case Text(_) => assert false;
    case CarriageReturn => assert false;
    case TwoByte(n, b) => assert s[..k] == Escs(k); EscsRun(k);
    case ControlSequence(n, p) =>
      if k <= n {
        assert s[..k] == Escs(k);
        EscsRun(k);
      } else {
        var q := p[..k - n - 1];
        assert s[..k] == Escs(n) + ([0x5b] + q);
        assert forall i :: 0 <= i < |q| ==> q[i] == p[..|p| - 1][i];
        IntroducerRun(n, 0x5b, q);
        SequenceRun(q);
      }
    case ControlString(n, o, p) =>
      if k <= n {
        assert s[..k] == Escs(k);
        EscsRun(k);
      } else {
        var q := p[..k - n - 1];
        assert s[..k] == Escs(n) + ([o] + q);
        forall i | 0 <= i < |q| ensures !Closes(q, i) {
          assert !Closes(p, i);
        }
        IntroducerRun(n, o, q);
        StringRun(q);
      }
  }

  /** Inside a tail as well. */
  lemma InsideATail(t: Tail, k: nat)
    requires WellFormedTail(t) && 0 < k <= |TailSpelling(t)|
    ensures EndState(Normal, TailSpelling(t)[..k]) != Normal
  {
    var s := TailSpelling(t);
    match t
    case Nothing => assert false;
    case BareEscs(n) => assert s[..k] == Escs(k); EscsRun(k);
    case OpenSequence(n, p) =>
      if k <= n {
        assert s[..k] == Escs(k);
        EscsRun(k);
      } else {
        var q := p[..k - n - 1];
        assert s[..k] == Escs(n) + ([0x5b] + q);
        IntroducerRun(n, 0x5b, q);
        SequenceRun(q);
      }
    case OpenString(n, o, p) =>
      if k <= n {
        assert s[..k] == Escs(k);
        EscsRun(k);
      } else {
        var q := p[..k - n - 1];
        assert s[..k] == Escs(n) + ([o] + q);
        forall i | 0 <= i < |q| ensures !Closes(q, i) {
          assert !Closes(p, i);
        }
        IntroducerRun(n, o, q);
        StringRun(q);
      }
  }

  /** Where a run of ESC bytes ends is decided by the bytes. */
  lemma {:induction false} EscsAreCounted(n: nat, x: bytes)
    requires x != [] ==> x[0] != ESC
    ensures LeadingEscs(Escs(n) + x) == n
  {
    var s := Escs(n) + x;
    if n == 0 {
      assert s == x;
    } else {
      assert s[1..] == Escs(n - 1) + x;
      EscsAreCounted(n - 1, x);
    }
  }

  lemma SameEscs(n: nat, m: nat, x: bytes, y: bytes)
    requires Escs(n) + x == Escs(m) + y
    requires x != [] ==> x[0] != ESC
    requires y != [] ==> y[0] != ESC
    ensures n == m && x == y
  {
    EscsAreCounted(n, x);
    EscsAreCounted(m, y);
    assert x == (Escs(n) + x)[n..] && y == (Escs(m) + y)[m..];
  }

  function AfterEscs(l: Lexeme): bytes
    requires !l.Text? && !l.CarriageReturn?
  {
    match l
    case TwoByte(_, b) => [b]
    case ControlSequence(_, p) => [0x5b] + p
    case ControlString(_, o, p) => [o] + p
  }

  lemma StartsWithEsc(l: Lexeme)
    requires WellFormed(l)
    ensures Spelling(l) != []
    ensures Spelling(l)[0] == ESC <==> !l.Text? && !l.CarriageReturn?
  {
    if !l.Text? && !l.CarriageReturn? {
      assert Spelling(l)[0] == Escs(l.escs)[0];
    }
  }

  lemma SpellingIsInjective(a: Lexeme, b: Lexeme)
    requires WellFormed(a) && WellFormed(b) && Spelling(a) == Spelling(b)
    ensures a == b
  {
    StartsWithEsc(a);
    StartsWithEsc(b);
    if !a.Text? && !a.CarriageReturn? {
      var x, y := AfterEscs(a), AfterEscs(b);
      SameEscs(a.escs, b.escs, x, y);
      assert x[0] == y[0] && x[1..] == y[1..];
    }
  }

  lemma TailSpellingIsInjective(a: Tail, b: Tail)
    requires WellFormedTail(a) && WellFormedTail(b) && TailSpelling(a) == TailSpelling(b)
    ensures a == b
  {
    assert a.Nothing? <==> |TailSpelling(a)| == 0;
    assert b.Nothing? <==> |TailSpelling(b)| == 0;
    if !a.Nothing? {
      var x := if a.BareEscs? then [] else [if a.OpenSequence? then 0x5b else a.opener] + a.payload;
      var y := if b.BareEscs? then [] else [if b.OpenSequence? then 0x5b else b.opener] + b.payload;
      assert TailSpelling(a) == Escs(a.escs) + x && TailSpelling(b) == Escs(b.escs) + y;
      SameEscs(a.escs, b.escs, x, y);
      if x != [] {
        assert x[0] == y[0] && x[1..] == y[1..];
      }
    }
  }

  /** The first lexemes of two tokenisations of one stream have the same length. */
  lemma SameFirstLexeme(a: Lexeme, x: bytes, b: Lexeme, y: bytes)
    requires WellFormed(a) && WellFormed(b) && Spelling(a) + x == Spelling(b) + y
    ensures a == b && x == y
  {
    var s := Spelling(a) + x;
    var n, m := |Spelling(a)|, |Spelling(b)|;
    assert s[..n] == Spelling(a) && s[..m] == Spelling(b);
    LexemeRun(a);
    LexemeRun(b);
    if n < m {
      assert Spelling(b)[..n] == Spelling(a);
      InsideALexeme(b, n);
    } else if m < n {
      assert Spelling(a)[..m] == Spelling(b);
      InsideALexeme(a, m);
    }
    SpellingIsInjective(a, b);
    assert x == s[n..] && y == s[m..];
  }

  lemma NotATail(a: Lexeme, x: bytes, t: Tail)
    requires WellFormed(a) && WellFormedTail(t)
    ensures Spelling(a) + x != TailSpelling(t)
  {
    if Spelling(a) + x == TailSpelling(t) {
      var n := |Spelling(a)|;
      assert TailSpelling(t)[..n] == Spelling(a);
      LexemeRun(a);
      InsideATail(t, n);
    }
  }

  /** A stream has exactly one tokenisation. */
  lemma {:induction false} TokenisationIsUnique(ls: seq<Lexeme>, t: Tail, ms: seq<Lexeme>, u: Tail, input: bytes)
    requires Tokenises(ls, t, input) && Tokenises(ms, u, input)
    ensures ls == ms && t == u
    decreases |ls|
  {
    if ls == [] && ms == [] {
      assert input == TailSpelling(t) && input == TailSpelling(u);
      TailSpellingIsInjective(t, u);
    } else if ls == [] {
      var y := Uncons(ms, u, input);
      NotATail(ms[0], y, t);
    } else if ms == [] {
      var x := Uncons(ls, t, input);
      NotATail(ls[0], x, u);
    } else {
      var x := Uncons(ls, t, input);
      var y := Uncons(ms, u, input);
      SameFirstLexeme(ls[0], x, ms[0], y);
      TokenisationIsUnique(ls[1..], t, ms[1..], u, x);
      assert ls == [ls[0]] + ls[1..] && ms == [ms[0]] + ms[1..];
    }
  }
}
