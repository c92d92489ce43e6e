/** Bytes and the few shared value types. Rust's `str` and `String` are UTF-8 bytes, so text
    is modelled as bytes throughout. */
module Bytes {
  newtype byte = x: int | 0 <= x < 0x100
  type bytes = seq<byte>

  const BEL: byte := 0x07
  const LF: byte := 0x0a
  const CR: byte := 0x0d
  const ESC: byte := 0x1b
  const SPACE: byte := 0x20
  const QUOTE: byte := 0x27      // '
  const BACKSLASH: byte := 0x5c

  datatype Option<+T> = None | Some(value: T)

  /** The bytes of ASCII text. */
  function Ascii(text: string): (b: bytes)
    requires forall c :: c in text ==> c as int < 0x80
    ensures |b| == |text| && forall i :: 0 <= i < |text| ==> b[i] as int == text[i] as int
  {
    seq(|text|, i requires 0 <= i < |text| => assert text[i] in text; text[i] as int as byte)
  }

  /** Concatenation of a list of byte strings. */
  function Concat(parts: seq<bytes>): bytes {
    if parts == [] then [] else parts[0] + Concat(parts[1..])
  }

  lemma Assoc<T>(a: seq<T>, b: seq<T>, c: seq<T>)
    ensures (a + b) + c == a + (b + c)
  {
  }

  lemma PrefixUnder<T>(a: seq<T>, x: seq<T>, y: seq<T>)
    requires x <= y
    ensures a + x <= a + y
  {
    assert y == x + y[|x|..];
    Assoc(a, x, y[|x|..]);
  }

  lemma {:induction false} ConcatAppend(a: seq<bytes>, b: seq<bytes>)
    ensures Concat(a + b) == Concat(a) + Concat(b)
  {
    if a == [] {
      assert a + b == b;
    } else {
      assert (a + b)[1..] == a[1..] + b;
      ConcatAppend(a[1..], b);
    }
  }

  lemma ConcatFirst(part: bytes, parts: seq<bytes>)
    ensures Concat([part] + parts) == part + Concat(parts)
  {
    assert ([part] + parts)[1..] == parts;
  }

  lemma {:induction false} ConcatNothing(parts: seq<bytes>)
    requires forall k :: 0 <= k < |parts| ==> parts[k] == []
    ensures Concat(parts) == []
  {
    if parts != [] {
      ConcatNothing(parts[1..]);
    }
  }

  lemma ConcatSplit(parts: seq<bytes>, n: nat)
    requires n <= |parts|
    ensures Concat(parts) == Concat(parts[..n]) + Concat(parts[n..])
  {
    hide Concat;
    ConcatAppend(parts[..n], parts[n..]);
    assert parts[..n] + parts[n..] == parts;
  }

  lemma ConcatOne(parts: seq<bytes>)
    requires forall i :: 0 < i < |parts| ==> parts[i] == []
    ensures Concat(parts) == if parts == [] then [] else parts[0]
  {
    if parts != [] {
      ConcatNothing(parts[1..]);
      assert parts[0] + [] == parts[0];
    }
  }

  /** Growing one part grows the whole at its end when there is nothing after that part. */
  lemma ConcatGrow(parts: seq<bytes>, i: nat, out: bytes)
    requires i < |parts|
    requires out != [] ==> forall k :: i < k < |parts| ==> parts[k] == []
    ensures Concat(parts[i := parts[i] + out]) == Concat(parts) + out
  {
    var before, part, after := parts[..i], parts[i], parts[i + 1..];
    assert parts == before + ([part] + after);
    assert parts[i := part + out] == before + ([part + out] + after);
    ConcatAppend(before, [part] + after);
    ConcatAppend(before, [part + out] + after);
    ConcatFirst(part, after);
    ConcatFirst(part + out, after);
    if out == [] {
      assert part + out == part;
    } else {
      ConcatNothing(after);
    }
  }
}
