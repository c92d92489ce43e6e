/** The printed form of a command: the host's banner (src/host.rs) and the replayed or
    attached entry (src/client.rs), plain or coloured. */
module Rendering {
  import opened Bytes
  import opened OutputFilters
  import opened Protocol
  import opened ShellQuoting

  const COLON: byte := 0x3a
  const OPEN_BRACKET: byte := 0x5b
  const CLOSE_BRACKET: byte := 0x5d
  const SEMICOLON: byte := 0x3b
  const M: byte := 0x6d
  const TIMEOUT_TAG: bytes := [SPACE, 0x54, 0x4f, 0x3d]                          // " TO="

  // SGR sequences.
  const RESET: bytes := [ESC, OPEN_BRACKET, 0x30, M]
  const DIM: bytes := [ESC, OPEN_BRACKET, 0x32, M]
  const BOLD_CYAN: bytes := [ESC, OPEN_BRACKET, 0x31, SEMICOLON, 0x33, 0x36, M]
  const BLUE: bytes := [ESC, OPEN_BRACKET, 0x33, 0x34, M]
  const BOLD_YELLOW: bytes := [ESC, OPEN_BRACKET, 0x31, SEMICOLON, 0x33, 0x33, M]

  function Decimal(n: nat): bytes {
    if n < 10 then [0x30 + n as byte] else Decimal(n / 10) + [0x30 + (n % 10) as byte]
  }

  function Paint(ansi: bool, code: bytes): bytes {
    if ansi then code else []
  }

  function Stamp(time: bytes, ansi: bool): bytes {
    Paint(ansi, DIM) + [OPEN_BRACKET] + time + [CLOSE_BRACKET, SPACE] + Paint(ansi, RESET)
  }

  function Who(whoami: bytes, ansi: bool): bytes {
    Paint(ansi, BOLD_CYAN) + whoami + Paint(ansi, RESET) + [COLON]
  }

  function Where(dir: bytes, ansi: bool): bytes {
    Paint(ansi, BLUE) + dir + Paint(ansi, RESET) + [SPACE] + Paint(ansi, BOLD_YELLOW) + [DOLLAR] + Paint(ansi, RESET)
  }

  function Ending(timeout: nat, exec: seq<bytes>): bytes {
    TIMEOUT_TAG + Decimal(timeout) + CommandText(exec)
  }

  function StampOf(entry: TranscriptEntry, ansi: bool): bytes {
    if entry.time.Some? then Stamp(entry.time.value, ansi) else []
  }

  /** The part of the header that colour touches. */
  function Prompt(entry: TranscriptEntry, ansi: bool): bytes {
    StampOf(entry, ansi) + Who(entry.whoami, ansi) + Where(entry.dir, ansi)
  }

  function Header(entry: TranscriptEntry, ansi: bool): bytes {
    Prompt(entry, ansi) + Ending(entry.timeout, entry.exec)
  }

  function Body(output: bytes): bytes {
    [LF] + output + (if output != [] && output[|output| - 1] == LF then [] else [LF]) + [LF]
  }

  function Rendered(entry: TranscriptEntry, ansi: bool): bytes {
    Header(entry, ansi) + Body(entry.output)
  }

  lemma {:induction false} CommandTextSnoc(argv: seq<bytes>, arg: bytes)
    ensures CommandText(argv + [arg]) == CommandText(argv) + [SPACE] + Quoted(arg)
  {
    if argv == [] {
      assert [arg][1..] == [] && [] + [arg] == [arg];
    } else {
      assert (argv + [arg])[1..] == argv[1..] + [arg];
      CommandTextSnoc(argv[1..], arg);
    }
  }

  lemma OneMorePushed(header: bytes, argv: seq<bytes>, i: nat)
    requires i < |argv|
    ensures header + CommandText(argv[..i + 1]) == ((header + CommandText(argv[..i])) + [SPACE]) + Quoted(argv[i])
  {
    CommandTextSnoc(argv[..i], argv[i]);
    hide CommandText, Quoted;
    assert argv[..i + 1] == argv[..i] + [argv[i]];
    var text := CommandText(argv[..i]);
    Assoc(header, text, [SPACE]);
    Assoc(header, text + [SPACE], Quoted(argv[i]));
  }

  /** The loop both printers run over the arguments. */
  method PushArguments(header: bytes, exec: seq<bytes>) returns (s: bytes)
    ensures s == header + CommandText(exec)
  {
    s := header;
    assert header + CommandText(exec[..0]) == header;
    hide CommandText, Quoted;
    for i := 0 to |exec|
      invariant s == header + CommandText(exec[..i])
    {
      OneMorePushed(header, exec, i);
      var quoted := ShellQuote(exec[i]);
      s := s + [SPACE];
      s := s + quoted;
    }
    assert exec[..|exec|] == exec;
  }

  method PushPrompt(entry: TranscriptEntry, ansi: bool) returns (header: bytes)
    ensures header == Prompt(entry, ansi)
  {
    header := [];
    if entry.time.Some? {
      if ansi {
        header := header + DIM;
      }
      header := header + [OPEN_BRACKET];
      header := header + entry.time.value;
      header := header + [CLOSE_BRACKET, SPACE];
      if ansi {
        header := header + RESET;
      }
    }
    ghost var stamp := header;
    var who := [];
    if ansi {
      who := who + BOLD_CYAN;
    }
    who := who + entry.whoami;
    if ansi {
      who := who + RESET;
    }
    who := who + [COLON];
    assert who == Who(entry.whoami, ansi);
    var dir := [];
    if ansi {
      dir := dir + BLUE;
    }
    dir := dir + entry.dir;
    if ansi {
      dir := dir + (RESET + [SPACE] + BOLD_YELLOW + [DOLLAR] + RESET);
    } else {
      dir := dir + [SPACE, DOLLAR];
    }
    assert dir == Where(entry.dir, ansi);
    header := header + who + dir;
  }

  method PushBody(output: bytes) returns (body: bytes)
    ensures body == Body(output)
  {
    body := [LF] + output;
    if output == [] || output[|output| - 1] != LF {
      body := body + [LF];
    }
    body := body + [LF];
  }

  method RenderEntryTo(entry: TranscriptEntry, ansi: bool) returns (out: bytes)
    ensures out == Rendered(entry, ansi)
  {
    var header := PushPrompt(entry, ansi);
    header := header + (TIMEOUT_TAG + Decimal(entry.timeout));
    header := PushArguments(header, entry.exec);
    Assoc(Prompt(entry, ansi), TIMEOUT_TAG + Decimal(entry.timeout), CommandText(entry.exec));
    var body := PushBody(entry.output);
    out := header + body;
  }

  /** The host's banner line. */
  function Banner(request: Request, time: bytes): bytes {
    BannerPrompt(request, time) + Ending(request.timeout, request.exec) + [LF]
  }

  function BannerPrompt(request: Request, time: bytes): bytes {
    [OPEN_BRACKET] + time + [CLOSE_BRACKET, SPACE] + request.whoami + [COLON] + request.dir + [SPACE, DOLLAR]
  }

  method PrintBanner(request: Request, time: bytes) returns (s: bytes)
    ensures s == Banner(request, time)
  {
    s := BannerPrompt(request, time);
    ghost var prompt := s;
    hide CommandText, Decimal, BannerPrompt;
    var timeout := Decimal(request.timeout);
    s := s + (TIMEOUT_TAG + timeout);
    Assoc(prompt, TIMEOUT_TAG + timeout, CommandText(request.exec));
    s := PushArguments(s, request.exec);
    s := s + [LF];
  }

  // ---------- what is printed, letter by letter ----------

  /** The number a string of decimal digits stands for. */
  function ValueOf(digits: bytes): int {
    if digits == [] then 0 else 10 * ValueOf(digits[..|digits| - 1]) + (digits[|digits| - 1] as int - '0' as int)
  }

  /** The timeout is printed in decimal digits, most significant first, without leading zeros. */
  lemma {:induction false} DecimalReadsBack(n: nat)
    ensures ValueOf(Decimal(n)) == n
    ensures Decimal(n) != [] && forall i :: 0 <= i < |Decimal(n)| ==> '0' as int <= Decimal(n)[i] as int <= '9' as int
    ensures n > 0 ==> Decimal(n)[0] as int != '0' as int
  {
    if n >= 10 {
      DecimalReadsBack(n / 10);
      assert Decimal(n)[..|Decimal(n)| - 1] == Decimal(n / 10);
    } else {
      assert Decimal(n)[..0] == [];
    }
  }

  lemma Codes()
    ensures RESET == Ascii("\U{1b}[0m") && DIM == Ascii("\U{1b}[2m") && BOLD_CYAN == Ascii("\U{1b}[1;36m")
    ensures BLUE == Ascii("\U{1b}[34m") && BOLD_YELLOW == Ascii("\U{1b}[1;33m")
    ensures TIMEOUT_TAG == Ascii(" TO=") && [LF] == Ascii("\n")
    ensures [OPEN_BRACKET] == Ascii("[") && [CLOSE_BRACKET, SPACE] == Ascii("] ") && [COLON] == Ascii(":")
    ensures [SPACE] == Ascii(" ") && [DOLLAR] == Ascii("$")
  {
  }

  /** The plain and the coloured prompt of an entry. */
  lemma PromptReads(e: TranscriptEntry)
    ensures Prompt(e, false)
         == (if e.time.Some? then Ascii("[") + e.time.value + Ascii("] ") else [])
            + (e.whoami + Ascii(":")) + (e.dir + Ascii(" ") + Ascii("$"))
    ensures Prompt(e, true)
         == (if e.time.Some? then Ascii("\U{1b}[2m") + Ascii("[") + e.time.value + Ascii("] ") + Ascii("\U{1b}[0m") else [])
            + (Ascii("\U{1b}[1;36m") + e.whoami + Ascii("\U{1b}[0m") + Ascii(":"))
            + (Ascii("\U{1b}[34m") + e.dir + Ascii("\U{1b}[0m") + Ascii(" ") + Ascii("\U{1b}[1;33m") + Ascii("$") + Ascii("\U{1b}[0m"))
  {
    hide Ascii;
    Codes();
    if e.time.Some? {
      assert Stamp(e.time.value, false) == [OPEN_BRACKET] + e.time.value + [CLOSE_BRACKET, SPACE];
    }
    assert Who(e.whoami, false) == e.whoami + [COLON];
    assert Where(e.dir, false) == e.dir + [SPACE] + [DOLLAR];
  }

  /** An entry prints its prompt, its timeout in decimal and its command on one line, then its
      output, ended by a newline if it has none, then an empty line. */
  lemma EntryReads(e: TranscriptEntry, ansi: bool)
    ensures Rendered(e, ansi)
         == Prompt(e, ansi) + (Ascii(" TO=") + Decimal(e.timeout) + CommandText(e.exec))
            + (Ascii("\n") + e.output + (if e.output != [] && e.output[|e.output| - 1] as int == '\n' as int then [] else Ascii("\n"))
               + Ascii("\n"))
  {
    hide Ascii, Decimal, CommandText, Prompt;
    Codes();
  }

  /** A command is announced by its time, identity, directory, timeout and quoted arguments. */
  lemma BannerReads(r: Request, time: bytes)
    ensures Banner(r, time)
         == (Ascii("[") + time + Ascii("] ") + r.whoami + Ascii(":") + r.dir + Ascii(" $"))
            + (Ascii(" TO=") + Decimal(r.timeout) + CommandText(r.exec)) + Ascii("\n")
  {
    Codes();
    assert [SPACE, DOLLAR] == Ascii(" $");
    hide Ascii, Decimal, CommandText;
  }

  // ---------- colour erasure ----------

  predicate IsCode(code: bytes) {
    code in [RESET, DIM, BOLD_CYAN, BLUE, BOLD_YELLOW]
  }

  /** A run over two pieces. */
  lemma Pieces(state: State, a: bytes, b: bytes)
    ensures EndState(state, a + b) == EndState(EndState(state, a), b)
    ensures Output(state, a + b) == Output(state, a) + Output(EndState(state, a), b)
  {
    EndStateConcat(state, a, b);
    OutputConcat(state, a, b);
  }

  lemma NoBytes(state: State)
    ensures EndState(state, []) == state && Output(state, []) == []
  {
  }

  lemma OneByte(state: State, b: byte)
    ensures EndState(state, [b]) == Next(state, b)
    ensures Output(state, [b]) == Emit(state, b)
  {
    assert [b][1..] == [];
    assert Emit(state, b) + [] == Emit(state, b);
  }

  /** A colour code, like a byte of plain text after it, leaves a control string open and brings
      every other state to Normal. */
  function AfterCode(state: State): State {
    if state == StringSeq || state == StringSeqSawEsc then StringSeq else Normal
  }

  lemma {:induction false} ParametersRun(state: State, parameters: bytes)
    requires forall i :: 0 <= i < |parameters| ==> 0x30 <= parameters[i] <= 0x3b
    requires state == Csi || state == StringSeq
    ensures EndState(state, parameters + [M]) == AfterCode(state) && Output(state, parameters + [M]) == []
    decreases parameters
  {
    if parameters == [] {
      assert [] + [M] == [M];
      OneByte(state, M);
    } else {
      assert (parameters + [M])[1..] == parameters[1..] + [M];
      ParametersRun(state, parameters[1..]);
    }
  }

  /** Only in an open control sequence is a code seen: its bracket ends the sequence there. */
  lemma CodeRuns(state: State, code: bytes)
    requires IsCode(code)
    ensures EndState(state, code) == AfterCode(state)
    ensures Output(state, code) == if state == Csi then code[2..] else []
  {
    hide EndState, Output;
    var parameters := code[2..|code| - 1];
    var rest := parameters + [M];
    assert code[2..] == rest && code == [ESC] + ([OPEN_BRACKET] + rest);
    Pieces(state, [ESC], [OPEN_BRACKET] + rest);
    OneByte(state, ESC);
    var s := Next(state, ESC);
    Pieces(s, [OPEN_BRACKET], rest);
    OneByte(s, OPEN_BRACKET);
    if state == Csi {
      CleanTextRuns(rest);
    } else {
      ParametersRun(Next(s, OPEN_BRACKET), parameters);
    }
  }

  /** The states a field may leave the filter in without the colour codes after it showing. */
  predicate Harmless(state: State) {
    state == Normal || state == StringSeq || state == StringSeqSawEsc
  }

  /** The state in which the filter comes to a field: a control string, or no sequence at all. */
  predicate AtField(state: State) {
    state == Normal || state == StringSeq
  }

  lemma BracketRuns(t: State)
    ensures AtField(EndState(t, [CLOSE_BRACKET, SPACE]))
  {
    hide EndState, Output;
    assert [CLOSE_BRACKET, SPACE] == [CLOSE_BRACKET] + [SPACE];
    Pieces(t, [CLOSE_BRACKET], [SPACE]);
    OneByte(t, CLOSE_BRACKET);
    OneByte(Next(t, CLOSE_BRACKET), SPACE);
  }

  lemma StampRuns(time: bytes)
    ensures AtField(EndState(Normal, Stamp(time, false)))
    ensures EndState(Normal, Stamp(time, true)) == EndState(Normal, Stamp(time, false))
    ensures Output(Normal, Stamp(time, true)) == Output(Normal, Stamp(time, false))
  {
    hide EndState, Output;
    var f := [OPEN_BRACKET] + time;
    var g := f + [CLOSE_BRACKET, SPACE];
    Pieces(Normal, f, [CLOSE_BRACKET, SPACE]);
    BracketRuns(EndState(Normal, f));
    CodeRuns(Normal, DIM);
    CodeRuns(EndState(Normal, g), RESET);
    Pieces(Normal, DIM, g + RESET);
    Pieces(Normal, g, RESET);
    assert Stamp(time, true) == DIM + (g + RESET);
    assert Stamp(time, false) == g;
  }

  /** What comes after the identity, by the state it leaves. */
  lemma ColonRuns(t: State)
    ensures EndState(t, RESET + [COLON]) == AfterCode(t)
    ensures Output(t, RESET + [COLON]) == if t == Csi then [0x30, M, COLON] else if AfterCode(t) == Normal then [COLON] else []
    ensures t != Csi ==> EndState(t, [COLON]) == AfterCode(t)
    ensures Output(t, [COLON]) == if t == Normal then [COLON] else []
  {
    hide EndState, Output;
    CodeRuns(t, RESET);
    Pieces(t, RESET, [COLON]);
    OneByte(t, COLON);
    OneByte(AfterCode(t), COLON);
    assert RESET[2..] + [COLON] == [0x30, M, COLON];
  }

  /** The identity, coloured and plain: only one that ends right after an ESC makes a
      difference, of one colon, unless it leaves a control sequence open. */
  lemma WhoRuns(s: State, whoami: bytes)
    requires AtField(s)
    ensures var t := EndState(s, whoami);
            && EndState(s, Who(whoami, true)) == AfterCode(t)
            && Output(s, Who(whoami, true)) == Output(s, whoami) + Output(t, RESET + [COLON])
            && EndState(s, Who(whoami, false)) == EndState(t, [COLON])
            && Output(s, Who(whoami, false)) == Output(s, whoami) + Output(t, [COLON])
  {
    hide EndState, Output;
    var t := EndState(s, whoami);
    CodeRuns(s, BOLD_CYAN);
    ColonRuns(t);
    assert Who(whoami, true) == BOLD_CYAN + (whoami + (RESET + [COLON]));
    assert Who(whoami, false) == whoami + [COLON];
    Pieces(s, BOLD_CYAN, whoami + (RESET + [COLON]));
    Pieces(s, whoami, RESET + [COLON]);
    Pieces(s, whoami, [COLON]);
  }

  const COLOURED_DOLLAR: bytes := RESET + ([SPACE] + (BOLD_YELLOW + ([DOLLAR] + RESET)))

  lemma YellowRuns(s: State)
    requires AtField(s)
    ensures EndState(s, BOLD_YELLOW + ([DOLLAR] + RESET)) == s
    ensures Output(s, BOLD_YELLOW + ([DOLLAR] + RESET)) == if s == Normal then [DOLLAR] else []
  {
    hide EndState, Output;
    CodeRuns(s, BOLD_YELLOW);
    OneByte(s, DOLLAR);
    CodeRuns(s, RESET);
    Pieces(s, [DOLLAR], RESET);
    Pieces(s, BOLD_YELLOW, [DOLLAR] + RESET);
  }

  lemma DollarRuns(d: State)
    ensures EndState(d, COLOURED_DOLLAR) == AfterCode(d)
    ensures Output(d, COLOURED_DOLLAR)
         == (if d == Csi then [0x30, M] else []) + if AfterCode(d) == Normal then [SPACE, DOLLAR] else []
  {
    hide EndState, Output;
    var s := AfterCode(d);
    var rest := BOLD_YELLOW + ([DOLLAR] + RESET);
    CodeRuns(d, RESET);
    OneByte(s, SPACE);
    YellowRuns(s);
    Pieces(s, [SPACE], rest);
    Pieces(d, RESET, [SPACE] + rest);
    assert [SPACE] + [DOLLAR] == [SPACE, DOLLAR];
    assert RESET[2..] == [0x30, M];
  }

  lemma PlainDollarRuns(d: State)
    ensures EndState(d, [SPACE, DOLLAR]) == if d == Csi then Csi else AfterCode(d)
    ensures Output(d, [SPACE, DOLLAR]) == if d == Normal then [SPACE, DOLLAR] else if d == Esc then [DOLLAR] else []
  {
    hide EndState, Output;
    assert [SPACE, DOLLAR] == [SPACE] + [DOLLAR];
    Pieces(d, [SPACE], [DOLLAR]);
    OneByte(d, SPACE);
    OneByte(Next(d, SPACE), DOLLAR);
  }

  lemma TagRuns()
    ensures EndState(Normal, TIMEOUT_TAG) == Normal && Output(Normal, TIMEOUT_TAG) == TIMEOUT_TAG
    ensures EndState(Csi, TIMEOUT_TAG) == Normal && |Output(Csi, TIMEOUT_TAG)| == 2
  {
    hide EndState, Output;
    CleanTextRuns(TIMEOUT_TAG);
    var a, b := [SPACE], [0x54, 0x4f, 0x3d];
    assert TIMEOUT_TAG == a + b && b == [0x54] + [0x4f, 0x3d];
    Pieces(Csi, a, b);
    OneByte(Csi, SPACE);
    Pieces(Csi, [0x54], [0x4f, 0x3d]);
    OneByte(Csi, 0x54);
    CleanTextRuns([0x4f, 0x3d]);
  }

  /** How many bytes more the coloured dollar sign leaves than the plain one. */
  function DollarExcess(d: State): nat {
    if d == Esc then 1 else if d == Csi then 6 else 0
  }

  /** The directory and all that follows it, coloured and plain. */
  lemma WhereRuns(s: State, dir: bytes, rest: bytes)
    requires AtField(s)
    ensures var d := EndState(s, dir);
            var coloured := Output(s, Where(dir, true) + (TIMEOUT_TAG + rest));
            var plain := Output(s, Where(dir, false) + (TIMEOUT_TAG + rest));
            && |coloured| == |plain| + DollarExcess(d)
            && (Harmless(d) ==> coloured == plain)
  {
    hide EndState, Output;
    var d := EndState(s, dir);
    var tail := TIMEOUT_TAG + rest;
    WherePieces(s, dir, tail);
    DollarRuns(d);
    PlainDollarRuns(d);
    TagRuns();
    Pieces(Normal, TIMEOUT_TAG, rest);
    Pieces(Csi, TIMEOUT_TAG, rest);
  }

  lemma WherePieces(s: State, dir: bytes, tail: bytes)
    requires AtField(s)
    ensures var d := EndState(s, dir);
            && Output(s, Where(dir, true) + tail)
               == Output(s, dir) + (Output(d, COLOURED_DOLLAR) + Output(EndState(d, COLOURED_DOLLAR), tail))
            && Output(s, Where(dir, false) + tail)
               == Output(s, dir) + (Output(d, [SPACE, DOLLAR]) + Output(EndState(d, [SPACE, DOLLAR]), tail))
  {
    hide EndState, Output;
    var d := EndState(s, dir);
    CodeRuns(s, BLUE);
    assert Where(dir, true) + tail == BLUE + (dir + (COLOURED_DOLLAR + tail));
    assert Where(dir, false) + tail == dir + ([SPACE, DOLLAR] + tail);
    Pieces(s, BLUE, dir + (COLOURED_DOLLAR + tail));
    Pieces(s, dir, COLOURED_DOLLAR + tail);
    Pieces(d, COLOURED_DOLLAR, tail);
    Pieces(s, dir, [SPACE, DOLLAR] + tail);
    Pieces(d, [SPACE, DOLLAR], tail);
  }

  /** The plain header as far as its identity, and as far as its directory. */
  function UpToWho(entry: TranscriptEntry): bytes {
    StampOf(entry, false) + entry.whoami
  }

  function UpToDir(entry: TranscriptEntry): bytes {
    UpToWho(entry) + [COLON] + entry.dir
  }

  function StateAfterWho(entry: TranscriptEntry): State {
    EndState(Normal, UpToWho(entry))
  }

  function StateAfterDir(entry: TranscriptEntry): State {
    EndState(Normal, UpToDir(entry))
  }

  lemma StampOfRuns(entry: TranscriptEntry)
    ensures AtField(EndState(Normal, StampOf(entry, false)))
    ensures EndState(Normal, StampOf(entry, true)) == EndState(Normal, StampOf(entry, false))
    ensures Output(Normal, StampOf(entry, true)) == Output(Normal, StampOf(entry, false))
  {
    hide EndState, Output, Stamp;
    NoBytes(Normal);
    if entry.time.Some? {
      StampRuns(entry.time.value);
    }
  }

  lemma PromptRuns(entry: TranscriptEntry, ansi: bool, tail: bytes)
    ensures var stamp, rest := StampOf(entry, ansi), Who(entry.whoami, ansi) + (Where(entry.dir, ansi) + tail);
            Output(Normal, Prompt(entry, ansi) + tail) == Output(Normal, stamp) + Output(EndState(Normal, stamp), rest)
  {
    hide EndState, Output, Stamp, Who, Where;
    var stamp, who, dir := StampOf(entry, ansi), Who(entry.whoami, ansi), Where(entry.dir, ansi);
    Assoc(stamp + who, dir, tail);
    Assoc(stamp, who, dir + tail);
    Pieces(Normal, stamp, who + (dir + tail));
  }

  /** The state at the identity, and the filtered prompt from there on. */
  lemma PromptPieces(entry: TranscriptEntry, tail: bytes) returns (s: State, before: bytes)
    ensures AtField(s)
    ensures Output(Normal, Prompt(entry, true) + tail)
         == before + Output(s, Who(entry.whoami, true) + (Where(entry.dir, true) + tail))
    ensures Output(Normal, Prompt(entry, false) + tail)
         == before + Output(s, Who(entry.whoami, false) + (Where(entry.dir, false) + tail))
    ensures StateAfterWho(entry) == EndState(s, entry.whoami)
    ensures StateAfterDir(entry) == EndState(EndState(StateAfterWho(entry), [COLON]), entry.dir)
  {
    hide EndState, Output, StampOf, Who, Where, Prompt;
    var stamp := StampOf(entry, false);
    s, before := EndState(Normal, stamp), Output(Normal, stamp);
    StampOfRuns(entry);
    PromptRuns(entry, true, tail);
    PromptRuns(entry, false, tail);
    Pieces(Normal, stamp, entry.whoami);
    Pieces(Normal, UpToWho(entry), [COLON]);
    Pieces(Normal, UpToWho(entry) + [COLON], entry.dir);
  }

  /** How many bytes more the filtered coloured header leaves, unless the identity leaves a
      control sequence open. */
  function Excess(entry: TranscriptEntry): nat {
    (if StateAfterWho(entry) == Esc then 1 else 0) + DollarExcess(StateAfterDir(entry))
  }

  lemma ColourWithoutOpenSequence(entry: TranscriptEntry, rest: bytes)
    requires StateAfterWho(entry) != Csi
    ensures var coloured := Filtered(Prompt(entry, true) + (TIMEOUT_TAG + rest));
            var plain := Filtered(Prompt(entry, false) + (TIMEOUT_TAG + rest));
            && |coloured| == |plain| + Excess(entry)
            && (Harmless(StateAfterWho(entry)) && Harmless(StateAfterDir(entry)) ==> coloured == plain)
  {
    hide EndState, Output, Who, Where, Prompt, UpToWho, UpToDir;
    var tail := TIMEOUT_TAG + rest;
    var s, before := PromptPieces(entry, tail);
    var t := EndState(s, entry.whoami);
    WhoRuns(s, entry.whoami);
    ColonRuns(t);
    Pieces(s, Who(entry.whoami, true), Where(entry.dir, true) + tail);
    Pieces(s, Who(entry.whoami, false), Where(entry.dir, false) + tail);
    WhereRuns(AfterCode(t), entry.dir, rest);
  }

  /** Text without an ESC ends an open control sequence or not; it leaves nothing else open. */
  lemma {:induction false} NoEscRuns(state: State, text: bytes)
    requires ESC !in text && (state == Normal || state == Csi)
    ensures var s := EndState(state, text); s == Normal || s == Csi
    ensures state == Normal ==> EndState(state, text) == Normal && |Output(state, text)| == |text|
    ensures |Output(state, text)| <= |text|
    decreases text
  {
    if text != [] {
      NoEscRuns(Next(state, text[0]), text[1..]);
    }
  }

  /** An identity that leaves a control sequence open shows, when the directory has no ESC. */
  lemma OpenSequenceShows(entry: TranscriptEntry, rest: bytes)
    requires StateAfterWho(entry) == Csi && ESC !in entry.dir
    ensures |Filtered(Prompt(entry, true) + (TIMEOUT_TAG + rest))| > |Filtered(Prompt(entry, false) + (TIMEOUT_TAG + rest))|
  {
    hide EndState, Output, Who, Where, Prompt, UpToWho, UpToDir;
    var tail := TIMEOUT_TAG + rest;
    var s, before := PromptPieces(entry, tail);
    WhoRuns(s, entry.whoami);
    ColonRuns(Csi);
    Pieces(s, Who(entry.whoami, true), Where(entry.dir, true) + tail);
    Pieces(s, Who(entry.whoami, false), Where(entry.dir, false) + tail);
    OneByte(Csi, COLON);
    OpenSequenceAtDir(entry.dir, rest);
  }

  lemma OpenSequenceAtDir(dir: bytes, rest: bytes)
    requires ESC !in dir
    ensures |Output(Normal, Where(dir, true) + (TIMEOUT_TAG + rest))| >= |Output(Csi, Where(dir, false) + (TIMEOUT_TAG + rest))|
  {
    hide EndState, Output;
    var tail := TIMEOUT_TAG + rest;
    WherePieces(Normal, dir, tail);
    NoEscRuns(Normal, dir);
    DollarRuns(Normal);
    assert Where(dir, false) + tail == dir + ([SPACE, DOLLAR] + tail);
    Pieces(Csi, dir, [SPACE, DOLLAR] + tail);
    NoEscRuns(Csi, dir);
    var d := EndState(Csi, dir);
    Pieces(d, [SPACE, DOLLAR], tail);
    PlainDollarRuns(d);
    TagRuns();
    Pieces(Normal, TIMEOUT_TAG, rest);
    Pieces(Csi, TIMEOUT_TAG, rest);
  }

  /** Colour erasure, exactly: filtering makes a coloured header, and a coloured rendering, the
      same as a plain one if and only if neither the identity nor the directory leaves an escape
      sequence open, other than a control string. The time, the arguments and the output do not
      matter. This covers every entry but those whose identity leaves a control sequence open
      for a directory with an ESC; see `OpenSequenceCoincides`. */
  lemma ColourIsErased(entry: TranscriptEntry)
    ensures StateAfterWho(entry) != Csi || ESC !in entry.dir ==>
              (Filtered(Header(entry, true)) == Filtered(Header(entry, false))
               <==> Harmless(StateAfterWho(entry)) && Harmless(StateAfterDir(entry)))
    ensures StateAfterWho(entry) != Csi || ESC !in entry.dir ==>
              (Filtered(Rendered(entry, true)) == Filtered(Rendered(entry, false))
               <==> Harmless(StateAfterWho(entry)) && Harmless(StateAfterDir(entry)))
  {
    hide Prompt, StateAfterWho, StateAfterDir, Filtered, Header, Rendered;
    var rest := Decimal(entry.timeout) + CommandText(entry.exec);
    HeaderHasTheTag(entry, true);
    HeaderHasTheTag(entry, false);
    if StateAfterWho(entry) != Csi || ESC !in entry.dir {
      ExactFor(entry, rest);
      ExactFor(entry, rest + Body(entry.output));
    }
  }

  lemma HeaderHasTheTag(entry: TranscriptEntry, ansi: bool)
    ensures var rest := Decimal(entry.timeout) + CommandText(entry.exec);
            && Header(entry, ansi) == Prompt(entry, ansi) + (TIMEOUT_TAG + rest)
            && Rendered(entry, ansi) == Prompt(entry, ansi) + (TIMEOUT_TAG + (rest + Body(entry.output)))
  {
    hide Prompt;
    Assoc(TIMEOUT_TAG, Decimal(entry.timeout), CommandText(entry.exec));
    Assoc(Prompt(entry, ansi), Ending(entry.timeout, entry.exec), Body(entry.output));
    Assoc(TIMEOUT_TAG, Decimal(entry.timeout) + CommandText(entry.exec), Body(entry.output));
  }

  lemma ExactFor(entry: TranscriptEntry, rest: bytes)
    requires StateAfterWho(entry) != Csi || ESC !in entry.dir
    ensures Filtered(Prompt(entry, true) + (TIMEOUT_TAG + rest)) == Filtered(Prompt(entry, false) + (TIMEOUT_TAG + rest))
       <==> Harmless(StateAfterWho(entry)) && Harmless(StateAfterDir(entry))
  {
    hide EndState, Output, Prompt, StateAfterWho, StateAfterDir, Filtered;
    if StateAfterWho(entry) == Csi {
      OpenSequenceShows(entry, rest);
    } else {
      ColourWithoutOpenSequence(entry, rest);
    }
  }

  lemma PlainWherePieces(s: State, dir: bytes, tail: bytes)
    ensures var d := EndState(s, dir);
            Output(s, Where(dir, false) + tail)
            == Output(s, dir) + (Output(d, [SPACE, DOLLAR]) + Output(EndState(d, [SPACE, DOLLAR]), tail))
  {
    hide EndState, Output;
    assert Where(dir, false) + tail == dir + ([SPACE, DOLLAR] + tail);
    Pieces(s, dir, [SPACE, DOLLAR] + tail);
    Pieces(EndState(s, dir), [SPACE, DOLLAR], tail);
  }

  /** What is left of the directory and of the sign after it, up to the timeout's number, when
      the identity left a control sequence open: its bracket in the coloured header ends it. */
  function ColouredStretch(dir: bytes): bytes {
    [0x30, M, COLON] + Output(Normal, dir) + ColouredLead(EndState(Normal, dir))
  }

  function PlainStretch(dir: bytes): bytes {
    Output(Csi, dir) + PlainLead(EndState(Csi, dir))
  }

  predicate InString(state: State) {
    state == StringSeq || state == StringSeqSawEsc
  }

  function ColouredLead(d: State): bytes {
    if InString(d) then [] else (if d == Csi then [0x30, M] else []) + [SPACE, DOLLAR] + TIMEOUT_TAG
  }

  function PlainLead(d: State): bytes {
    if InString(d) then []
    else if d == Csi then [0x4f, 0x3d]
    else (if d == Normal then [SPACE, DOLLAR] else [DOLLAR]) + TIMEOUT_TAG
  }

  lemma TagInASequence()
    ensures Output(Csi, TIMEOUT_TAG) == [0x4f, 0x3d] && EndState(Csi, TIMEOUT_TAG) == Normal
  {
    hide EndState, Output;
    var b := [0x54, 0x4f, 0x3d];
    assert TIMEOUT_TAG == [SPACE] + b && b == [0x54] + [0x4f, 0x3d];
    Pieces(Csi, [SPACE], b);
    OneByte(Csi, SPACE);
    Pieces(Csi, [0x54], [0x4f, 0x3d]);
    OneByte(Csi, 0x54);
    CleanTextRuns([0x4f, 0x3d]);
  }

  /** How a header goes on after the sign and the tag. */
  function Onwards(d: State, rest: bytes): bytes {
    if InString(d) then Output(StringSeq, TIMEOUT_TAG + rest) else Output(Normal, rest)
  }

  lemma ColouredLeadRuns(d: State, rest: bytes)
    ensures Output(d, COLOURED_DOLLAR) + Output(EndState(d, COLOURED_DOLLAR), TIMEOUT_TAG + rest) == ColouredLead(d) + Onwards(d, rest)
  {
    hide EndState, Output;
    DollarRuns(d);
    TagRuns();
    Pieces(Normal, TIMEOUT_TAG, rest);
  }

  lemma PlainLeadRuns(d: State, rest: bytes)
    ensures Output(d, [SPACE, DOLLAR]) + Output(EndState(d, [SPACE, DOLLAR]), TIMEOUT_TAG + rest) == PlainLead(d) + Onwards(d, rest)
  {
    hide EndState, Output;
    PlainDollarRuns(d);
    TagRuns();
    TagInASequence();
    Pieces(Normal, TIMEOUT_TAG, rest);
    Pieces(Csi, TIMEOUT_TAG, rest);
  }

  lemma StretchRuns(dir: bytes, rest: bytes)
    ensures [0x30, M, COLON] + Output(Normal, Where(dir, true) + (TIMEOUT_TAG + rest))
         == ColouredStretch(dir) + Onwards(EndState(Normal, dir), rest)
    ensures Output(Csi, Where(dir, false) + (TIMEOUT_TAG + rest)) == PlainStretch(dir) + Onwards(EndState(Csi, dir), rest)
  {
    hide EndState, Output, Where, Onwards, ColouredLead, PlainLead;
    WherePieces(Normal, dir, TIMEOUT_TAG + rest);
    PlainWherePieces(Csi, dir, TIMEOUT_TAG + rest);
    var c, p := EndState(Normal, dir), EndState(Csi, dir);
    ColouredLeadRuns(c, rest);
    PlainLeadRuns(p, rest);
    Assoc(Output(Normal, dir), ColouredLead(c), Onwards(c, rest));
    Assoc([0x30, M, COLON], Output(Normal, dir), ColouredLead(c));
    Assoc([0x30, M, COLON], Output(Normal, dir) + ColouredLead(c), Onwards(c, rest));
    Assoc(Output(Csi, dir), PlainLead(p), Onwards(p, rest));
  }

  lemma SameEnding(x: bytes, y: bytes, z: bytes)
    ensures x + z == y + z <==> x == y
  {
    if x + z == y + z {
      assert |x| == |y|;
      assert (x + z)[..|x|] == x && (y + z)[..|y|] == y;
    }
  }

  lemma OpenSequenceFor(entry: TranscriptEntry, rest: bytes)
    requires StateAfterWho(entry) == Csi
    requires InString(EndState(Normal, entry.dir)) == InString(EndState(Csi, entry.dir))
    ensures Filtered(Prompt(entry, true) + (TIMEOUT_TAG + rest)) == Filtered(Prompt(entry, false) + (TIMEOUT_TAG + rest))
       <==> ColouredStretch(entry.dir) == PlainStretch(entry.dir)
  {
    hide EndState, Output, Who, Where, Prompt, UpToWho, UpToDir, StateAfterDir, ColouredStretch, PlainStretch;
    var tail := TIMEOUT_TAG + rest;
    var s, before := PromptPieces(entry, tail);
    WhoRuns(s, entry.whoami);
    ColonRuns(Csi);
    OneByte(Csi, COLON);
    Pieces(s, Who(entry.whoami, true), Where(entry.dir, true) + tail);
    Pieces(s, Who(entry.whoami, false), Where(entry.dir, false) + tail);
    StretchRuns(entry.dir, rest);
    OpenSequenceEnds(before, Output(s, entry.whoami), Output(Normal, Where(entry.dir, true) + tail), Output(Csi, Where(entry.dir, false) + tail),
                     ColouredStretch(entry.dir), PlainStretch(entry.dir), Onwards(EndState(Csi, entry.dir), rest));
  }

  lemma OpenSequenceEnds(before: bytes, who: bytes, coloured: bytes, plain: bytes, x: bytes, y: bytes, z: bytes)
    requires [0x30, M, COLON] + coloured == x + z && plain == y + z
    ensures before + ((who + [0x30, M, COLON]) + coloured) == before + ((who + []) + plain) <==> x == y
  {
    Assoc(who, [0x30, M, COLON], coloured);
    assert who + [] == who;
    SameBeginning(who, [0x30, M, COLON] + coloured, plain);
    SameBeginning(before, who + ([0x30, M, COLON] + coloured), who + plain);
    SameEnding(x, y, z);
  }

  lemma SameBeginning(x: bytes, y: bytes, z: bytes)
    ensures x + y == x + z <==> y == z
  {
    if x + y == x + z {
      assert (x + y)[|x|..] == y && (x + z)[|x|..] == z;
    }
  }

  /** An identity that leaves a control sequence open, for any directory that ends inside a
      control string in both headers or in neither: the filtered headers, and renderings, are
      equal if and only if what is left of these two fields, up to the timeout's number, is the
      same by chance. Nothing after them matters. */
  lemma OpenSequenceExactly(entry: TranscriptEntry)
    requires StateAfterWho(entry) == Csi
    requires InString(EndState(Normal, entry.dir)) == InString(EndState(Csi, entry.dir))
    ensures Filtered(Header(entry, true)) == Filtered(Header(entry, false))
       <==> ColouredStretch(entry.dir) == PlainStretch(entry.dir)
    ensures Filtered(Rendered(entry, true)) == Filtered(Rendered(entry, false))
       <==> ColouredStretch(entry.dir) == PlainStretch(entry.dir)
  {
    hide Prompt, StateAfterWho, StateAfterDir, Filtered, Header, Rendered, EndState, ColouredStretch, PlainStretch;
    var rest := Decimal(entry.timeout) + CommandText(entry.exec);
    HeaderHasTheTag(entry, true);
    HeaderHasTheTag(entry, false);
    OpenSequenceFor(entry, rest);
    OpenSequenceFor(entry, rest + Body(entry.output));
  }

  /** The field's own escape sequences are complete. */
  predicate Closed(field: bytes) {
    EndState(Normal, field) == Normal
  }

  predicate ClosedFields(entry: TranscriptEntry) {
    && (entry.time.Some? ==> Closed(entry.time.value))
    && Closed(entry.whoami) && Closed(entry.dir)
  }

  /** So it is enough that each field by itself is closed. */
  lemma ClosedFieldsAreErased(entry: TranscriptEntry)
    requires ClosedFields(entry)
    ensures Filtered(Header(entry, true)) == Filtered(Header(entry, false))
    ensures Filtered(Rendered(entry, true)) == Filtered(Rendered(entry, false))
  {
    hide EndState, Output;
    if entry.time.Some? {
      var time := entry.time.value;
      CleanTextRuns([OPEN_BRACKET]);
      CleanTextRuns([CLOSE_BRACKET, SPACE]);
      Pieces(Normal, [OPEN_BRACKET], time);
      Pieces(Normal, [OPEN_BRACKET] + time, [CLOSE_BRACKET, SPACE]);
      assert Stamp(time, false) == [OPEN_BRACKET] + time + [CLOSE_BRACKET, SPACE];
      Pieces(Normal, Stamp(time, false), entry.whoami);
    } else {
      assert UpToWho(entry) == entry.whoami;
    }
    assert StateAfterWho(entry) == Normal;
    CleanTextRuns([COLON]);
    Pieces(Normal, UpToWho(entry), [COLON]);
    Pieces(Normal, UpToWho(entry) + [COLON], entry.dir);
    hide Header, Rendered;
    ColourIsErased(entry);
  }

  predicate CleanFields(entry: TranscriptEntry) {
    && (entry.time.Some? ==> Clean(entry.time.value))
    && Clean(entry.whoami) && Clean(entry.dir)
    && forall arg :: arg in entry.exec ==> Clean(arg)
  }

  lemma {:induction false} DecimalIsClean(n: nat)
    ensures Clean(Decimal(n))
  {
    if n >= 10 {
      DecimalIsClean(n / 10);
    }
  }

  lemma {:induction false} EscapedAllIsClean(arg: bytes)
    requires Clean(arg)
    ensures Clean(EscapedAll(arg))
  {
    if arg != [] {
      EscapedAllIsClean(arg[..|arg| - 1]);
    }
  }

  lemma {:induction false} CommandTextIsClean(argv: seq<bytes>)
    requires forall arg :: arg in argv ==> Clean(arg)
    ensures Clean(CommandText(argv))
    decreases argv
  {
    if argv != [] {
      EscapedAllIsClean(argv[0]);
      CommandTextIsClean(argv[1..]);
    }
  }

  /** With no ESC or CR in any field, what is left of the coloured header is the plain header. */
  lemma ColourIsErasedToPlain(entry: TranscriptEntry)
    requires CleanFields(entry)
    ensures Filtered(Header(entry, true)) == Header(entry, false)
  {
    if entry.time.Some? {
      CleanTextRuns(entry.time.value);
    }
    CleanTextRuns(entry.whoami);
    CleanTextRuns(entry.dir);
    ClosedFieldsAreErased(entry);
    PlainHeaderIsClean(entry);
    CleanTextRuns(Header(entry, false));
  }

  lemma PlainHeaderIsClean(entry: TranscriptEntry)
    requires CleanFields(entry)
    ensures Clean(Header(entry, false))
  {
    DecimalIsClean(entry.timeout);
    CommandTextIsClean(entry.exec);
    assert Clean(Ending(entry.timeout, entry.exec));
    assert Clean(Who(entry.whoami, false)) && Clean(Where(entry.dir, false));
    assert entry.time.Some? ==> Clean(Stamp(entry.time.value, false));
    assert Clean(Prompt(entry, false));
  }

  /** The shortest field that shows: an identity of one ESC costs the plain header its colon. */
  lemma OpenFieldShowsThrough(e: TranscriptEntry)
    requires e.whoami == [ESC] && e.time == None
    ensures StateAfterWho(e) == Esc
    ensures Filtered(Header(e, true)) != Filtered(Header(e, false))
  {
    assert UpToWho(e) == [ESC];
    OneByte(Normal, ESC);
    hide Header, Rendered;
    ColourIsErased(e);
  }

  const OPEN_SEQUENCE: bytes := [ESC, OPEN_BRACKET]
  const STRAY_STRING: bytes := [ESC, CLOSE_BRACKET, 0x30, M, COLON, ESC, BACKSLASH]

  /** Why an open control sequence before an ESC is left out of the equivalence: what the plain
      header swallows and what the coloured one spells out can be the same bytes by chance. */
  lemma OpenSequenceCoincides(e: TranscriptEntry)
    requires e.whoami == OPEN_SEQUENCE && e.dir == STRAY_STRING && e.time == None
    ensures StateAfterWho(e) == Csi && !Harmless(StateAfterWho(e))
    ensures Filtered(Header(e, true)) == Filtered(Header(e, false))
  {
    hide EndState, Output, Who, Where, Prompt, Header, Rendered, UpToDir, CommandText, Decimal, StateAfterDir;
    var tail := TIMEOUT_TAG + (Decimal(e.timeout) + CommandText(e.exec));
    HeaderHasTheTag(e, true);
    HeaderHasTheTag(e, false);
    var s, before := PromptPieces(e, tail);
    OpenSequenceRuns(e);
    WhoRuns(s, e.whoami);
    Pieces(s, Who(e.whoami, true), Where(e.dir, true) + tail);
    Pieces(s, Who(e.whoami, false), Where(e.dir, false) + tail);
    CoincidingTails(tail);
    ColonRuns(Csi);
    OneByte(Csi, COLON);
    var x := Output(s, e.whoami);
    Assoc(x, [0x30, M, COLON], Output(Normal, Where(e.dir, true) + tail));
    assert x + [] == x;
  }

  lemma OpenSequenceRuns(e: TranscriptEntry)
    requires e.whoami == OPEN_SEQUENCE && e.time == None
    ensures StateAfterWho(e) == Csi
  {
    hide EndState, Output;
    assert UpToWho(e) == [ESC] + [OPEN_BRACKET];
    Pieces(Normal, [ESC], [OPEN_BRACKET]);
    OneByte(Normal, ESC);
    OneByte(Esc, OPEN_BRACKET);
  }

  lemma CoincidingTails(tail: bytes)
    ensures [0x30, M, COLON] + Output(Normal, Where(STRAY_STRING, true) + tail) == Output(Csi, Where(STRAY_STRING, false) + tail)
  {
    hide EndState, Output, Where;
    StrayStringRuns();
    WherePieces(Normal, STRAY_STRING, tail);
    PlainWherePieces(Csi, STRAY_STRING, tail);
    DollarRuns(Normal);
    PlainDollarRuns(Normal);
  }

  /** From Normal it is a control string; after an open control sequence its bracket ends that. */
  lemma StrayStringRuns()
    ensures EndState(Normal, STRAY_STRING) == Normal && Output(Normal, STRAY_STRING) == []
    ensures EndState(Csi, STRAY_STRING) == Normal && Output(Csi, STRAY_STRING) == [0x30, M, COLON]
  {
    hide EndState, Output;
    var a, b, c := [ESC, CLOSE_BRACKET], [0x30, M, COLON], [ESC, BACKSLASH];
    assert STRAY_STRING == a + (b + c) && a == [ESC] + [CLOSE_BRACKET] && c == [ESC] + [BACKSLASH];
    OneByte(Normal, ESC);
    OneByte(Esc, CLOSE_BRACKET);
    OneByte(Csi, ESC);
    OneByte(Csi, CLOSE_BRACKET);
    OneByte(StringSeq, ESC);
    OneByte(StringSeqSawEsc, BACKSLASH);
    OneByte(Esc, BACKSLASH);
    Pieces(Normal, [ESC], [CLOSE_BRACKET]);
    Pieces(Csi, [ESC], [CLOSE_BRACKET]);
    CleanTextRuns(b);
    assert b == [0x30] + ([M] + [COLON]);
    Pieces(StringSeq, [0x30], [M] + [COLON]);
    Pieces(StringSeq, [M], [COLON]);
    OneByte(StringSeq, 0x30);
    OneByte(StringSeq, M);
    OneByte(StringSeq, COLON);
    Pieces(StringSeq, [ESC], [BACKSLASH]);
    Pieces(Normal, [ESC], [BACKSLASH]);
    Pieces(Normal, a, b + c);
    Pieces(Csi, a, b + c);
    Pieces(StringSeq, b, c);
    Pieces(Normal, b, c);
  }

  /** A timed entry prints the banner its command was announced with. */
  lemma EntryPrintsTheBanner(request: Request, time: bytes, entry: TranscriptEntry)
    requires entry.whoami == request.whoami && entry.dir == request.dir
    requires entry.timeout == request.timeout && entry.exec == request.exec
    requires entry.time == Some(time)
    ensures Header(entry, false) + [LF] == Banner(request, time)
    ensures Banner(request, time) <= Rendered(entry, false)
  {
    assert Prompt(entry, false)
        == [OPEN_BRACKET] + time + [CLOSE_BRACKET, SPACE] + request.whoami + [COLON] + request.dir + [SPACE, DOLLAR];
    PrefixUnder(Header(entry, false), [LF], Body(entry.output));
  }
}
