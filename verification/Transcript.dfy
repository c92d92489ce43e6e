/** The journal file: appending (src/transcript.rs), reading it whole, and following it while
    it grows (src/client.rs). */
module TranscriptFiles {
  import opened Bytes
  import opened Protocol
  import Utf8

  /** All of an entry's strings are UTF-8, as the source's strings always are. */
  predicate IsText(e: TranscriptEntry) {
    && Utf8.Valid(e.whoami) && Utf8.Valid(e.dir) && Utf8.Valid(e.output)
    && (forall name :: name in e.envs ==> Utf8.Valid(name) && Utf8.Valid(e.envs[name]))
    && (forall arg :: arg in e.exec ==> Utf8.Valid(arg))
    && (e.time.Some? ==> Utf8.Valid(e.time.value))
  }

  /** JSON and the trimming of Unicode text, as functions this model does not look into. */
  datatype Codec = Codec(
    encode: TranscriptEntry -> bytes,
    parse: bytes -> Option<TranscriptEntry>,
    trimEnd: bytes -> bytes,
    isBlank: bytes -> bool)
  {
    /** An entry of text is encoded as one line of UTF-8 text that reads back as the entry. */
    ghost predicate Faithful() {
      forall e: TranscriptEntry {:trigger encode(e)} :: IsText(e) ==>
        var line := encode(e);
        && line != [] && LF !in line && line[|line| - 1] != CR
        && Utf8.Valid(line) && !isBlank(line) && trimEnd(line) == line
        && parse(line) == Some(e)
    }
  }

  /** Index of the first LF, or the length. */
  function FirstLf(s: bytes): (n: nat)
    ensures n <= |s| && LF !in s[..n]
    ensures n < |s| ==> s[n] == LF
  {
    if s == [] || s[0] == LF then 0
    else
      var n := FirstLf(s[1..]);
      assert s[..n + 1] == [s[0]] + s[1..][..n];
      n + 1
  }

  // ---------- writing ----------

  function Line(codec: Codec, entry: TranscriptEntry): bytes {
    codec.encode(entry) + [LF]
  }

  /** The file after appending these entries to an empty one. */
  function Journal(codec: Codec, entries: seq<TranscriptEntry>): bytes {
    if entries == [] then [] else Line(codec, entries[0]) + Journal(codec, entries[1..])
  }

  class TranscriptWriter {
    const codec: Codec
    var file: bytes

    constructor (codec: Codec)
      ensures this.codec == codec && file == []
    {
      this.codec := codec;
      file := [];
    }

    method Append(entry: TranscriptEntry)
      modifies this
      ensures file == old(file) + Line(codec, entry)
    {
      var line := codec.encode(entry);
      file := file + line;
      file := file + [LF];
    }
  }

  // ---------- reading the whole file ----------

  /** A line without its LF and, if it had one, without a CR before it. */
  function Chomped(s: bytes, n: nat): bytes
    requires n <= |s|
  {
    if n < |s| && n > 0 && s[n - 1] == CR then s[..n - 1] else s[..n]
  }

  function AfterLine(s: bytes, n: nat): bytes
    requires n <= |s|
  {
    if n < |s| then s[n + 1..] else []
  }

  function EntryOf(codec: Codec, line: bytes): seq<TranscriptEntry> {
    if codec.isBlank(line) then []
    else match codec.parse(line)
      case Some(e) => [e]
      case None => []
  }

  /** The entries of a file, None when a line is not UTF-8. */
  function Entries(codec: Codec, s: bytes): Option<seq<TranscriptEntry>>
    decreases |s|
  {
    if s == [] then Some([])
    else
      var n := FirstLf(s);
      var line := Chomped(s, n);
      if !Utf8.Valid(line) then None
      else match Entries(codec, AfterLine(s, n))
        case None => None
        case Some(more) => Some(EntryOf(codec, line) + more)
  }

  function After(out: seq<TranscriptEntry>, r: Option<seq<TranscriptEntry>>): Option<seq<TranscriptEntry>> {
    match r
    case None => None
    case Some(more) => Some(out + more)
  }

  lemma OneMoreLine(codec: Codec, out: seq<TranscriptEntry>, rest: bytes)
    requires rest != [] && Utf8.Valid(Chomped(rest, FirstLf(rest)))
    ensures var n := FirstLf(rest);
            After(out, Entries(codec, rest))
            == After(out + EntryOf(codec, Chomped(rest, n)), Entries(codec, AfterLine(rest, n)))
  {
    var n := FirstLf(rest);
    var next := Entries(codec, AfterLine(rest, n));
    if next.Some? {
      Assoc(out, EntryOf(codec, Chomped(rest, n)), next.value);
    }
  }

  method ReadEntries(codec: Codec, file: bytes) returns (r: Option<seq<TranscriptEntry>>)
    ensures r == Entries(codec, file)
  {
    var out: seq<TranscriptEntry> := [];
    var rest := file;
    assert forall x: seq<TranscriptEntry> :: [] + x == x;
    while rest != []
      invariant Entries(codec, file) == After(out, Entries(codec, rest))
      decreases |rest|
    {
      var n := FirstLf(rest);
      var line := Chomped(rest, n);
      if !Utf8.Valid(line) {
        return None;
      }
      OneMoreLine(codec, out, rest);
      rest := AfterLine(rest, n);
      if codec.isBlank(line) {
        assert out + [] == out;
        continue;
      }
      match codec.parse(line)
      case Some(e) => out := out + [e];
      case None => assert out + [] == out;
    }
    assert out + [] == out;
    return Some(out);
  }

  // ---------- following it ----------

  function RenderedLine(codec: Codec, line: bytes): seq<TranscriptEntry> {
    if line == [] || !Utf8.Valid(line) then []
    else match codec.parse(codec.trimEnd(line))
      case Some(e) => [e]
      case None => []
  }

  /** One pass over the whole lines of s; a trailing partial line is not looked at. */
  function OnePass(codec: Codec, s: bytes): seq<TranscriptEntry>
    decreases |s|
  {
    var n := FirstLf(s);
    if n == |s| then [] else RenderedLine(codec, s[..n]) + OnePass(codec, s[n + 1..])
  }

  /** Length of the whole lines of s. */
  function WholeLines(s: bytes): (k: nat)
    ensures k <= |s|
    decreases |s|
  {
    var n := FirstLf(s);
    if n == |s| then 0 else n + 1 + WholeLines(s[n + 1..])
  }

  lemma AfterFirstLine(codec: Codec, s: bytes)
    ensures var n := FirstLf(s);
            && WholeLines(s) == (if n == |s| then 0 else n + 1 + WholeLines(s[n + 1..]))
            && OnePass(codec, s) == if n == |s| then [] else RenderedLine(codec, s[..n]) + OnePass(codec, s[n + 1..])
  {
  }

  lemma {:induction false} WholeLinesEndInLf(codec: Codec, s: bytes)
    ensures WholeLines(s) == 0 || s[WholeLines(s) - 1] == LF
    ensures forall i :: WholeLines(s) <= i < |s| ==> s[i] != LF
    decreases |s|
  {
    hide FirstLf, WholeLines;
    AfterFirstLine(codec, s);
    var n := FirstLf(s);
    if n == |s| {
      assert s[..n] == s;
    } else {
      var rest := s[n + 1..];
      WholeLinesEndInLf(codec, rest);
      assert forall i :: n < i < |s| ==> s[i] == rest[i - n - 1];
    }
  }

  /** One whole line: printed if it is an entry, skipped otherwise. */
  method RenderLine(codec: Codec, line: bytes) returns (entries: seq<TranscriptEntry>)
    ensures entries == RenderedLine(codec, line)
  {
    entries := [];
    if line == [] {
      return;
    }
    if Utf8.Valid(line) {
      match codec.parse(codec.trimEnd(line))
      case Some(entry) => entries := [entry];
      case None =>
    }
  }

  lemma RenderedOnTop(codec: Codec, before: seq<TranscriptEntry>, line: bytes, more: seq<TranscriptEntry>)
    ensures before + (RenderedLine(codec, line) + more) == (before + RenderedLine(codec, line)) + more
  {
  }

  /** One call: `len` is the length seen when the file was opened, `content` what was then read. */
  method RenderUntilEof(codec: Codec, len: nat, content: bytes, offset: nat)
    returns (newOffset: nat, rendered: seq<TranscriptEntry>)
    requires len <= |content|
    ensures var (o, r) := Followed(codec, len, content, offset); newOffset == o && rendered == r
    ensures len <= offset ==> newOffset == offset && rendered == []
  {
    if len <= offset {
      return offset, [];
    }
    var tail := content[offset..];
    var consumed: nat := 0;
    rendered := [];
    var rest := tail;
    while FirstLf(rest) < |rest|
      invariant consumed <= |tail| && rest == tail[consumed..]
      invariant consumed + WholeLines(rest) == WholeLines(tail)
      invariant rendered + OnePass(codec, rest) == OnePass(codec, tail)
      decreases |rest|
    {
      var newline := FirstLf(rest);
      var line := rest[..newline];
      RenderedOnTop(codec, rendered, line, OnePass(codec, rest[newline + 1..]));
      consumed := consumed + newline + 1;
      rest := rest[newline + 1..];
      var entries := RenderLine(codec, line);
      rendered := rendered + entries;
    }
    assert rendered + [] == rendered;
    newOffset := offset + consumed;
  }

  function Followed(codec: Codec, len: nat, content: bytes, offset: nat): (nat, seq<TranscriptEntry>)
    requires len <= |content|
  {
    if len <= offset then (offset, [])
    else (offset + WholeLines(content[offset..]), OnePass(codec, content[offset..]))
  }

  /** What one call saw of the growing file. */
  datatype Snapshot = Snapshot(len: nat, content: bytes)

  predicate Growing(calls: seq<Snapshot>) {
    && (forall i :: 0 <= i < |calls| ==> calls[i].len <= |calls[i].content|)
    && (forall i :: 0 < i < |calls| ==> calls[i - 1].content <= calls[i].content)
  }

  /** The offset and everything rendered after a series of calls, from offset 0. */
  function Follow(codec: Codec, calls: seq<Snapshot>): (nat, seq<TranscriptEntry>)
    requires Growing(calls)
  {
    if calls == [] then (0, [])
    else
      var last := calls[|calls| - 1];
      var (offset, rendered) := Follow(codec, calls[..|calls| - 1]);
      var (newOffset, more) := Followed(codec, last.len, last.content, offset);
      (newOffset, rendered + more)
  }

  lemma {:induction false} FirstLfIs(s: bytes, n: nat)
    requires n < |s| && s[n] == LF && LF !in s[..n]
    ensures FirstLf(s) == n
    decreases n
  {
    if n > 0 {
      assert s[..n][0] == s[0];
      assert s[1..][..n - 1] == s[..n][1..];
      FirstLfIs(s[1..], n - 1);
    }
  }

  lemma FirstLfInside(a: bytes, b: bytes)
    requires LF in a
    ensures FirstLf(a) < |a| && FirstLf(a + b) == FirstLf(a)
  {
    var n := FirstLf(a);
    assert a[..|a|] == a;
    assert (a + b)[..n] == a[..n];
    FirstLfIs(a + b, n);
  }

  /** Cutting after a newline changes nothing. */
  lemma {:induction false} OnePassConcat(codec: Codec, a: bytes, b: bytes)
    requires a != [] ==> a[|a| - 1] == LF
    ensures OnePass(codec, a + b) == OnePass(codec, a) + OnePass(codec, b)
    ensures WholeLines(a + b) == |a| + WholeLines(b)
    decreases |a|
  {
    if a == [] {
      assert a + b == b;
    } else {
      FirstLfInside(a, b);
      var n := FirstLf(a);
      assert (a + b)[..n] == a[..n];
      assert (a + b)[n + 1..] == a[n + 1..] + b;
      OnePassConcat(codec, a[n + 1..], b);
      AfterFirstLine(codec, a);
      AfterFirstLine(codec, a + b);
      hide OnePass, WholeLines, FirstLf, RenderedLine;
      Assoc(RenderedLine(codec, a[..n]), OnePass(codec, a[n + 1..]), OnePass(codec, b));
    }
  }

  lemma {:induction false} NoNewlineNoPass(codec: Codec, s: bytes)
    requires LF !in s
    ensures OnePass(codec, s) == [] && WholeLines(s) == 0
  {
  }

  lemma OnlyWholeLinesCount(codec: Codec, s: bytes)
    ensures OnePass(codec, s) == OnePass(codec, s[..WholeLines(s)])
  {
    var k := WholeLines(s);
    WholeLinesEndInLf(codec, s);
    assert s == s[..k] + s[k..];
    OnePassConcat(codec, s[..k], s[k..]);
    NoNewlineNoPass(codec, s[k..]);
  }

  /** The offset is at a line boundary and what was rendered is one parse up to it. */
  ghost predicate UpTo(codec: Codec, f: bytes, offset: nat, rendered: seq<TranscriptEntry>) {
    && offset <= |f|
    && (offset == 0 || f[offset - 1] == LF)
    && rendered == OnePass(codec, f[..offset])
  }

  ghost predicate CaughtUp(codec: Codec, f: bytes, offset: nat, rendered: seq<TranscriptEntry>) {
    offset == WholeLines(f) && rendered == OnePass(codec, f)
  }

  lemma StillUpTo(codec: Codec, f: bytes, g: bytes, offset: nat, rendered: seq<TranscriptEntry>)
    requires UpTo(codec, f, offset, rendered) && f <= g
    ensures UpTo(codec, g, offset, rendered)
  {
    assert f[..offset] == g[..offset];
  }

  lemma CaughtUpIsUpTo(codec: Codec, f: bytes, offset: nat, rendered: seq<TranscriptEntry>)
    requires CaughtUp(codec, f, offset, rendered)
    ensures UpTo(codec, f, offset, rendered)
  {
    OnlyWholeLinesCount(codec, f);
    WholeLinesEndInLf(codec, f);
  }

  lemma AnotherPass(codec: Codec, f: bytes, offset: nat, rendered: seq<TranscriptEntry>)
    requires UpTo(codec, f, offset, rendered)
    ensures CaughtUp(codec, f, offset + WholeLines(f[offset..]), rendered + OnePass(codec, f[offset..]))
  {
    assert f == f[..offset] + f[offset..];
    OnePassConcat(codec, f[..offset], f[offset..]);
  }

  lemma NothingLeft(codec: Codec, f: bytes, offset: nat, rendered: seq<TranscriptEntry>)
    requires UpTo(codec, f, offset, rendered) && offset == |f|
    ensures CaughtUp(codec, f, offset, rendered)
  {
    assert f[..offset] == f && f + [] == f;
    OnePassConcat(codec, f, []);
    NoNewlineNoPass(codec, []);
  }

  /** However the appends are cut between the calls, the offset is at a line boundary and what
      has been rendered is one parse of the file up to it; a call that saw the whole length
      leaves nothing complete unrendered. */
  lemma {:induction false} FollowEqualsOnePass(codec: Codec, calls: seq<Snapshot>)
    requires Growing(calls) && calls != []
    ensures var (offset, rendered) := Follow(codec, calls);
            var last := calls[|calls| - 1];
            && UpTo(codec, last.content, offset, rendered)
            && (last.len == |last.content| ==> CaughtUp(codec, last.content, offset, rendered))
  {
    var last, before := calls[|calls| - 1], calls[..|calls| - 1];
    var (offset, rendered) := Follow(codec, before);
    NoNewlineNoPass(codec, []);
    if before != [] {
      FollowEqualsOnePass(codec, before);
      assert before[|before| - 1] == calls[|calls| - 2];
      StillUpTo(codec, before[|before| - 1].content, last.content, offset, rendered);
    }
    OneMoreCall(codec, last, offset, rendered);
  }

  lemma OneMoreCall(codec: Codec, last: Snapshot, offset: nat, rendered: seq<TranscriptEntry>)
    requires last.len <= |last.content| && UpTo(codec, last.content, offset, rendered)
    ensures var (newOffset, more) := Followed(codec, last.len, last.content, offset);
            && UpTo(codec, last.content, newOffset, rendered + more)
            && (last.len == |last.content| ==> CaughtUp(codec, last.content, newOffset, rendered + more))
  {
    if last.len <= offset {
      assert rendered + [] == rendered;
      if last.len == |last.content| {
        NothingLeft(codec, last.content, offset, rendered);
      }
    } else {
      AnotherPass(codec, last.content, offset, rendered);
      var (newOffset, more) := Followed(codec, last.len, last.content, offset);
      CaughtUpIsUpTo(codec, last.content, newOffset, rendered + more);
    }
  }

  // ---------- line by line ----------

  /** A line, then its newline, then the rest. */
  lemma LineThenRest(line: bytes, rest: bytes)
    requires LF !in line
    ensures var s := line + [LF] + rest;
            && FirstLf(s) == |line| && s[..|line|] == line && s[|line| + 1..] == rest && AfterLine(s, |line|) == rest
            && Chomped(s, |line|) == if line != [] && line[|line| - 1] == CR then line[..|line| - 1] else line
  {
    var s := line + [LF] + rest;
    assert s[..|line|] == line && s[|line|] == LF && s[|line| + 1..] == rest;
    FirstLfIs(s, |line|);
    assert line != [] ==> s[|line| - 1] == line[|line| - 1] && s[..|line| - 1] == line[..|line| - 1];
  }

  /** `read_entries` takes a line: it fails if the line is not UTF-8, passes over it if it is
      blank or does not parse, and otherwise takes its entry. A CR before the newline goes with it. */
  lemma ReadingALine(codec: Codec, line: bytes, rest: bytes)
    requires LF !in line && (line == [] || line[|line| - 1] != CR)
    ensures !Utf8.Valid(line) ==> Entries(codec, line + [LF] + rest) == None
    ensures Utf8.Valid(line) ==>
              Entries(codec, line + [LF] + rest)
              == match Entries(codec, rest)
                 case None => None
                 case Some(more) =>
                   if codec.isBlank(line) || codec.parse(line) == None then Some(more)
                   else Some([codec.parse(line).value] + more)
    ensures Entries(codec, line + [CR] + [LF] + rest) == Entries(codec, line + [LF] + rest)
  {
    LineThenRest(line, rest);
    assert LF !in line + [CR];
    LineThenRest(line + [CR], rest);
    assert (line + [CR])[..|line|] == line;
    assert forall more: seq<TranscriptEntry> :: [] + more == more;
  }

  /** A last line without a newline is read as well. */
  lemma ReadingTheLastLine(codec: Codec, line: bytes)
    requires LF !in line && line != [] && line[|line| - 1] != CR
    ensures Entries(codec, line) == Entries(codec, line + [LF])
  {
    NoLf(line);
    LineThenRest(line, []);
    assert line + [LF] + [] == line + [LF];
    assert line[..|line|] == line;
  }

  lemma {:induction false} NoLf(line: bytes)
    requires LF !in line
    ensures FirstLf(line) == |line|
  {
  }

  /** The follower takes a line: it passes over it if it is empty, not UTF-8, or does not parse
      once trimmed, and otherwise prints its entry. */
  lemma RenderingALine(codec: Codec, line: bytes, rest: bytes)
    requires LF !in line
    ensures OnePass(codec, line + [LF] + rest)
         == (if line == [] || !Utf8.Valid(line) || codec.parse(codec.trimEnd(line)) == None then []
             else [codec.parse(codec.trimEnd(line)).value]) + OnePass(codec, rest)
    ensures WholeLines(line + [LF] + rest) == |line| + 1 + WholeLines(rest)
  {
    LineThenRest(line, rest);
  }

  // ---------- files built by appending ----------

  lemma {:induction false} JournalSnoc(codec: Codec, entries: seq<TranscriptEntry>, entry: TranscriptEntry)
    ensures Journal(codec, entries + [entry]) == Journal(codec, entries) + Line(codec, entry)
    decreases entries
  {
    if entries == [] {
      assert [entry][1..] == [] && [] + [entry] == [entry];
    } else {
      assert (entries + [entry])[1..] == entries[1..] + [entry];
      JournalSnoc(codec, entries[1..], entry);
      Assoc(Line(codec, entries[0]), Journal(codec, entries[1..]), Line(codec, entry));
    }
  }

  lemma LineIsALine(codec: Codec, e: TranscriptEntry, rest: bytes)
    requires codec.Faithful() && IsText(e)
    ensures var s := Line(codec, e) + rest; var n := |codec.encode(e)|;
            && FirstLf(s) == n && s[..n] == codec.encode(e) && s[n + 1..] == rest
            && Chomped(s, n) == codec.encode(e) && AfterLine(s, n) == rest
  {
    var line := codec.encode(e);
    var s, n := Line(codec, e) + rest, |line|;
    assert s[..n] == line && s[n] == LF && s[n + 1..] == rest;
    FirstLfIs(s, n);
    assert s[n - 1] == line[n - 1];
  }

  /** The completed file: both readers return exactly the entries that were appended. */
  lemma {:induction false} JournalReadsBack(codec: Codec, entries: seq<TranscriptEntry>)
    requires codec.Faithful() && forall e :: e in entries ==> IsText(e)
    ensures Entries(codec, Journal(codec, entries)) == Some(entries)
    ensures OnePass(codec, Journal(codec, entries)) == entries
    ensures WholeLines(Journal(codec, entries)) == |Journal(codec, entries)|
  {
    if entries != [] {
      var e, rest := entries[0], Journal(codec, entries[1..]);
      LineIsALine(codec, e, rest);
      JournalReadsBack(codec, entries[1..]);
      var line := codec.encode(e);
      assert codec.parse(line) == Some(e);
      assert [e] + entries[1..] == entries;
    }
  }

  lemma FirstLineCut(codec: Codec, e: TranscriptEntry, rest: bytes, cut: nat)
    requires codec.Faithful() && IsText(e) && cut <= |codec.encode(e)|
    ensures OnePass(codec, (Line(codec, e) + rest)[..cut]) == []
  {
    var line := codec.encode(e);
    assert (Line(codec, e) + rest)[..cut] == line[..cut];
    assert LF !in line[..cut];
    NoNewlineNoPass(codec, line[..cut]);
  }

  lemma FirstLineWhole(codec: Codec, e: TranscriptEntry, more: bytes)
    requires codec.Faithful() && IsText(e)
    ensures OnePass(codec, Line(codec, e) + more) == [e] + OnePass(codec, more)
  {
    LineIsALine(codec, e, more);
    assert codec.parse(codec.encode(e)) == Some(e);
  }

  /** A file cut in the middle of an append yields exactly the entries whose lines are before
      the cut, never a torn one. */
  lemma {:induction false} CutJournalYieldsPrefix(codec: Codec, entries: seq<TranscriptEntry>, cut: nat) returns (k: nat)
    requires codec.Faithful() && forall e :: e in entries ==> IsText(e)
    requires cut <= |Journal(codec, entries)|
    ensures k <= |entries| && OnePass(codec, Journal(codec, entries)[..cut]) == entries[..k]
    ensures |Journal(codec, entries[..k])| <= cut
    ensures k < |entries| ==> cut < |Journal(codec, entries[..k + 1])|
    decreases entries
  {
    hide OnePass, IsText;
    var j := Journal(codec, entries);
    if entries == [] {
      k := 0;
      assert j[..cut] == [];
      NoNewlineNoPass(codec, []);
    } else {
      var e, rest := entries[0], Journal(codec, entries[1..]);
      var n := |codec.encode(e)|;
      if cut <= n {
        k := 0;
        FirstLineCut(codec, e, rest, cut);
        assert entries[..1] == [e] && [e][1..] == [];
        assert |Line(codec, e)| == n + 1;
      } else {
        var more := rest[..cut - n - 1];
        assert j[..cut] == Line(codec, e) + more;
        FirstLineWhole(codec, e, more);
        k := CutJournalYieldsPrefix(codec, entries[1..], cut - n - 1);
        assert entries[..k + 1] == [e] + entries[1..][..k];
        assert entries[..k + 1][1..] == entries[1..][..k];
        assert k + 1 < |entries| ==> entries[..k + 2][1..] == entries[1..][..k + 1];
        k := k + 1;
      }
    }
  }
}
