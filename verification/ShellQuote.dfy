/** The shell quoting of src/client.rs and src/host.rs, read back by the quoting rules of
    section 2.2 of the POSIX.1-2017 Shell Command Language. */
module ShellQuoting {
  import opened Bytes

  predicate IsDigit(c: byte) {
    0x30 <= c <= 0x39
  }

  predicate IsAlphanumeric(c: byte) {
    IsDigit(c) || 0x41 <= c <= 0x5a || 0x61 <= c <= 0x7a
  }

  /** `-`, `_`, `/`, `.`, `+`, `:`, `@`, `=`, `,` and `%`. */
  predicate IsSafePunctuation(c: byte) {
    || c == 0x2d || c == 0x5f || c == 0x2f || c == 0x2e || c == 0x2b
    || c == 0x3a || c == 0x40 || c == 0x3d || c == 0x2c || c == 0x25
  }

  predicate IsSafe(c: byte) {
    IsAlphanumeric(c) || IsSafePunctuation(c)
  }

  predicate NeedsNoQuotes(arg: bytes) {
    arg != [] && forall i :: 0 <= i < |arg| ==> IsSafe(arg[i])
  }

  /** The text that stands for one byte inside single quotes. */
  function Escaped(c: byte): bytes {
    if c == QUOTE then [QUOTE, BACKSLASH, QUOTE, QUOTE] else [c]
  }

  function EscapedAll(arg: bytes): bytes {
    if arg == [] then [] else EscapedAll(arg[..|arg| - 1]) + Escaped(arg[|arg| - 1])
  }

  function Quoted(arg: bytes): bytes {
    if NeedsNoQuotes(arg) then arg else [QUOTE] + EscapedAll(arg) + [QUOTE]
  }

  method ShellQuote(arg: bytes) returns (s: bytes)
    ensures s == Quoted(arg)
  {
    var safe := arg != [];
    for i := 0 to |arg|
      invariant safe <==> arg != [] && forall k :: 0 <= k < i ==> IsSafe(arg[k])
    {
      safe := safe && IsSafe(arg[i]);
    }
    if safe {
      return arg;
    }
    s := [QUOTE];
    for i := 0 to |arg|
      invariant s == [QUOTE] + EscapedAll(arg[..i])
    {
      assert arg[..i + 1][..i] == arg[..i];
      if arg[i] == QUOTE {
        s := s + [QUOTE, BACKSLASH, QUOTE, QUOTE];
      } else {
        s := s + [arg[i]];
      }
    }
    assert arg[..|arg|] == arg;
    s := s + [QUOTE];
  }

  /** The arguments of a command line as the banner prints them: each after a space. */
  function CommandText(argv: seq<bytes>): bytes {
    if argv == [] then [] else [SPACE] + Quoted(argv[0]) + CommandText(argv[1..])
  }

  /** An argument is printed bare exactly when it is a nonempty word of ASCII letters, digits and
      the marks - _ / . + : @ = , and %; any other is printed between single quotes. */
  lemma BareArguments(arg: bytes)
    ensures Quoted(arg) == arg <==> arg != [] && forall c :: c in arg ==>
              || 'a' as int <= c as int <= 'z' as int || 'A' as int <= c as int <= 'Z' as int || '0' as int <= c as int <= '9' as int
              || c in Ascii("-_/.+:@=,%")
    ensures Quoted(arg) != arg ==>
              |Quoted(arg)| >= 2 && Quoted(arg)[0] as int == '\'' as int && Quoted(arg)[|Quoted(arg)| - 1] as int == '\'' as int
  {
    forall c: byte ensures IsSafe(c) <==>
              || 'a' as int <= c as int <= 'z' as int || 'A' as int <= c as int <= 'Z' as int || '0' as int <= c as int <= '9' as int
              || c in Ascii("-_/.+:@=,%")
    {
      SafeMarks(c);
    }
    if !NeedsNoQuotes(arg) {
      LongerQuoted(arg);
    }
    assert (forall c :: c in arg ==> IsSafe(c)) <==> forall i :: 0 <= i < |arg| ==> IsSafe(arg[i]);
  }

  /** Letter by letter: a space before each argument, and a quote inside one leaves the quotes,
      is escaped, and enters them again. */
  lemma ArgumentsRead(arg: bytes, rest: seq<bytes>)
    ensures CommandText([]) == []
    ensures CommandText([arg] + rest) == Ascii(" ") + Quoted(arg) + CommandText(rest)
    ensures Quoted(arg) != arg ==> Quoted(arg) == Ascii("'") + EscapedAll(arg) + Ascii("'")
    ensures forall before: bytes, c: byte ::
              EscapedAll(before + [c]) == EscapedAll(before) + if c as int == '\'' as int then Ascii("'\\''") else [c]
  {
    assert ([arg] + rest)[1..] == rest;
    assert Ascii(" ") == [SPACE] && Ascii("'") == [QUOTE] && Ascii("'\\''") == [QUOTE, BACKSLASH, QUOTE, QUOTE];
    forall before: bytes, c: byte
      ensures EscapedAll(before + [c]) == EscapedAll(before) + if c as int == '\'' as int then Ascii("'\\''") else [c]
    {
      assert (before + [c])[..|before|] == before;
    }
  }

  lemma SafeMarks(c: byte)
    ensures IsSafePunctuation(c) <==> c in Ascii("-_/.+:@=,%")
  {
    var marks := Ascii("-_/.+:@=,%");
    assert marks == [0x2d, 0x5f, 0x2f, 0x2e, 0x2b, 0x3a, 0x40, 0x3d, 0x2c, 0x25];
  }

  lemma {:induction false} LongerQuoted(arg: bytes)
    ensures |EscapedAll(arg)| >= |arg|
  {
    if arg != [] {
      LongerQuoted(arg[..|arg| - 1]);
    }
  }

  // ---------- the shell's reading ----------

  datatype Mode = Blank | Word | SingleQuoted | DoubleQuoted | Backslashed | DoubleBackslashed

  /** `word` is the word read so far; it means nothing in Blank. */
  datatype Reader = Reader(mode: Mode, word: bytes, words: seq<bytes>) | Rejected

  const DOUBLE_QUOTE: byte := 0x22
  const TAB: byte := 0x09
  const DOLLAR: byte := 0x24
  const BACKTICK: byte := 0x60

  predicate IsBlank(c: byte) {
    c == SPACE || c == TAB
  }

  /** Bytes that mean something to the shell unless quoted, other than the quoting characters
      and blanks: | & ; < > ( ) $ ` and newline, and * ? [ # ~ which may. Section 2.2 also names
      = and % among those that may: = matters to what a word is for (an assignment, before the
      command name), and % to job control and parameter expansion. Neither ends a word nor
      changes it, so in splitting a text into words they are ordinary. */
  predicate IsSpecial(c: byte) {
    || c == 0x7c || c == 0x26 || c == 0x3b || c == 0x3c || c == 0x3e || c == 0x28 || c == 0x29
    || c == DOLLAR || c == BACKTICK || c == LF
    || c == 0x2a || c == 0x3f || c == 0x5b || c == 0x23 || c == 0x7e
  }

  /** A byte outside quotes, at the start of a word or within one. */
  function ReadUnquoted(r: Reader, c: byte): Reader
    requires r.Reader?
  {
    var word := if r.mode == Blank then [] else r.word;
    if IsBlank(c) then
      if r.mode == Blank then r else Reader(Blank, [], r.words + [word])
    else if c == QUOTE then Reader(SingleQuoted, word, r.words)
    else if c == DOUBLE_QUOTE then Reader(DoubleQuoted, word, r.words)
    else if c == BACKSLASH then Reader(Backslashed, word, r.words)
    else if IsSpecial(c) then Rejected
    else Reader(Word, word + [c], r.words)
  }

  /** One byte, by sections 2.2.1 (backslash), 2.2.2 (single quotes) and 2.2.3 (double quotes). */
  function Read(r: Reader, c: byte): Reader {
    if r.Rejected? then Rejected
    else match r.mode
      case Blank | Word => ReadUnquoted(r, c)
      case SingleQuoted => if c == QUOTE then r.(mode := Word) else r.(word := r.word + [c])
      case Backslashed => if c == LF then r.(mode := Word) else Reader(Word, r.word + [c], r.words)
      case DoubleQuoted =>
        if c == DOUBLE_QUOTE then r.(mode := Word)
        else if c == BACKSLASH then r.(mode := DoubleBackslashed)
        else if c == DOLLAR || c == BACKTICK then Rejected
        else r.(word := r.word + [c])
      case DoubleBackslashed =>
        if c == LF then r.(mode := DoubleQuoted)
        else if c == DOLLAR || c == BACKTICK || c == DOUBLE_QUOTE || c == BACKSLASH
          then Reader(DoubleQuoted, r.word + [c], r.words)
        else Reader(DoubleQuoted, r.word + [BACKSLASH, c], r.words)
  }

  function ReadAll(r: Reader, text: bytes): Reader {
    if text == [] then r else Read(ReadAll(r, text[..|text| - 1]), text[|text| - 1])
  }

  /** The words of a command line; None when it is not just words or a quote is left open. */
  function Words(text: bytes): Option<seq<bytes>> {
    match ReadAll(Reader(Blank, [], []), text)
    case Rejected => None
    case Reader(Blank, _, words) => Some(words)
    case Reader(Word, word, words) => Some(words + [word])
    case _ => None
  }

  // ---------- the round trip ----------

  lemma {:induction false} ReadConcat(r: Reader, a: bytes, b: bytes)
    ensures ReadAll(r, a + b) == ReadAll(ReadAll(r, a), b)
    decreases b
  {
    if b == [] {
      assert a + b == a;
    } else {
      assert (a + b)[..|a + b| - 1] == a + b[..|b| - 1];
      ReadConcat(r, a, b[..|b| - 1]);
    }
  }

  lemma ReadThen(r: Reader, c: byte, rest: bytes)
    ensures ReadAll(r, [c] + rest) == ReadAll(Read(r, c), rest)
  {
    assert [c][..0] == [];
    ReadConcat(r, [c], rest);
  }

  lemma {:induction false} SafeTextIsRead(words: seq<bytes>, word: bytes, arg: bytes)
    requires forall i :: 0 <= i < |arg| ==> IsSafe(arg[i])
    ensures ReadAll(Reader(Word, word, words), arg) == Reader(Word, word + arg, words)
  {
    if arg == [] {
      assert word + [] == word;
    } else {
      var before, c := arg[..|arg| - 1], arg[|arg| - 1];
      SafeTextIsRead(words, word, before);
      assert word + before + [c] == word + arg;
    }
  }

  lemma EscapedIsRead(words: seq<bytes>, word: bytes, c: byte)
    ensures ReadAll(Reader(SingleQuoted, word, words), Escaped(c)) == Reader(SingleQuoted, word + [c], words)
  {
    var r := Reader(SingleQuoted, word, words);
    if c == QUOTE {
      var t := [QUOTE, BACKSLASH, QUOTE, QUOTE];
      assert t[..3] == [QUOTE, BACKSLASH, QUOTE] && t[..3][..2] == [QUOTE, BACKSLASH];
      assert t[..3][..2][..1] == [QUOTE] && t[..3][..2][..1][..0] == [];
      assert ReadAll(r, []) == r;
      assert ReadAll(r, [QUOTE]) == r.(mode := Word);
      assert ReadAll(r, [QUOTE, BACKSLASH]) == r.(mode := Backslashed);
      assert ReadAll(r, [QUOTE, BACKSLASH, QUOTE]) == Reader(Word, word + [QUOTE], words);
    } else {
      assert [c][..0] == [];
    }
  }

  lemma {:induction false} EscapedAllIsRead(words: seq<bytes>, arg: bytes)
    ensures ReadAll(Reader(SingleQuoted, [], words), EscapedAll(arg)) == Reader(SingleQuoted, arg, words)
  {
    hide Read, Escaped;
    if arg != [] {
      var before, c := arg[..|arg| - 1], arg[|arg| - 1];
      EscapedAllIsRead(words, before);
      ReadConcat(Reader(SingleQuoted, [], words), EscapedAll(before), Escaped(c));
      EscapedIsRead(words, before, c);
      assert before + [c] == arg;
    }
  }

  lemma SafeArgumentIsRead(words: seq<bytes>, arg: bytes)
    requires NeedsNoQuotes(arg)
    ensures ReadAll(Reader(Blank, [], words), arg) == Reader(Word, arg, words)
  {
    var c, rest := arg[0], arg[1..];
    assert arg == [c] + rest;
    assert Read(Reader(Blank, [], words), c) == Reader(Word, [c], words);
    ReadThen(Reader(Blank, [], words), c, rest);
    SafeTextIsRead(words, [c], rest);
  }

  lemma WrappedArgumentIsRead(words: seq<bytes>, arg: bytes)
    ensures ReadAll(Reader(Blank, [], words), [QUOTE] + EscapedAll(arg) + [QUOTE]) == Reader(Word, arg, words)
  {
    var inner := EscapedAll(arg);
    Assoc([QUOTE], inner, [QUOTE]);
    ReadThen(Reader(Blank, [], words), QUOTE, inner + [QUOTE]);
    ReadConcat(Reader(SingleQuoted, [], words), inner, [QUOTE]);
    EscapedAllIsRead(words, arg);
    assert (inner + [QUOTE])[..|inner|] == inner;
    ReadThen(Reader(SingleQuoted, arg, words), QUOTE, []);
    assert [QUOTE] + [] == [QUOTE];
  }

  /** One quoted argument is read as one word, the argument itself. */
  lemma QuotedIsRead(words: seq<bytes>, arg: bytes)
    ensures ReadAll(Reader(Blank, [], words), Quoted(arg)) == Reader(Word, arg, words)
  {
    if NeedsNoQuotes(arg) {
      SafeArgumentIsRead(words, arg);
    } else {
      WrappedArgumentIsRead(words, arg);
    }
  }

  /** What the reader holds between two arguments. */
  function Holding(words: seq<bytes>): Reader {
    if words == [] then Reader(Blank, [], []) else Reader(Word, words[|words| - 1], words[..|words| - 1])
  }

  lemma {:induction false} CommandTextIsRead(done: seq<bytes>, argv: seq<bytes>)
    ensures ReadAll(Holding(done), CommandText(argv)) == Holding(done + argv)
    decreases argv
  {
    if argv == [] {
      assert done + argv == done;
      assert ReadAll(Holding(done), []) == Holding(done);
    } else {
      OneMoreArgument(done, argv[0]);
      ReadConcat(Holding(done), [SPACE] + Quoted(argv[0]), CommandText(argv[1..]));
      CommandTextIsRead(done + [argv[0]], argv[1..]);
      Assoc(done, [argv[0]], argv[1..]);
      assert [argv[0]] + argv[1..] == argv;
    }
  }

  lemma OneMoreArgument(done: seq<bytes>, arg: bytes)
    ensures ReadAll(Holding(done), [SPACE] + Quoted(arg)) == Holding(done + [arg])
  {
    ReadThen(Holding(done), SPACE, Quoted(arg));
    assert done != [] ==> done == done[..|done| - 1] + [done[|done| - 1]];
    QuotedIsRead(done, arg);
    assert (done + [arg])[..|done|] == done;
  }

  /** What the reader holds at the end, as a list of words. */
  lemma HeldWords(words: seq<bytes>)
    ensures match Holding(words)
            case Reader(Word, word, before) => before + [word] == words
            case Reader(mode, _, before) => mode == Blank && before == [] == words
            case Rejected => false
  {
  }

  /** The shell reads the printed command line back as exactly the argument list. */
  lemma QuotingRoundTrip(argv: seq<bytes>)
    ensures Words(CommandText(argv)) == Some(argv)
  {
    hide ReadAll, CommandText, Holding;
    assert Holding([]) == Reader(Blank, [], []) by {
      NothingHeld();
    }
    CommandTextIsRead([], argv);
    assert [] + argv == argv;
    HeldWords(argv);
  }

  lemma NothingHeld()
    ensures Holding([]) == Reader(Blank, [], [])
  {
  }

  /** Distinct argument lists print distinct command lines. */
  lemma CommandTextIsInjective(a: seq<bytes>, b: seq<bytes>)
    requires CommandText(a) == CommandText(b)
    ensures a == b
  {
    hide CommandText, Words;
    QuotingRoundTrip(a);
    QuotingRoundTrip(b);
  }
}
